/** The page hook that plays audio chunks pushed by the server: a FIFO queue
    drained by `processQueue` one chunk at a time, guarded by an `isPlaying`
    flag, over one audio context shared by every mount through `window`.

    `processQueue` is asynchronous. Its synchronous part (up to the first
    `await`) is the method `ProcessQueue`; each run then waits as a task, and
    the settling of that wait (the context's `resume`, `decodeAudioData`, the
    source's `onended`) is an event method naming that waiting run. */
module AudioPlayer {
  import opened Common

  datatype Chunk = Chunk(id: int)

  /** What the `play_audio` event may carry. */
  datatype Payload =
    | Missing                          // `null` or `undefined`
    | RawBuffer(chunk: Chunk)          // an `ArrayBuffer`
    | HasBuffer(inner: Option<Chunk>)  // an object whose `buffer` is an `ArrayBuffer` (or is not)
    | OtherValue                       // anything else

  /** The input check of the `play_audio` handler: an `ArrayBuffer` is taken as
      it is, a view's `buffer` is taken instead; anything else is rejected. */
  function BufferOf(p: Payload): (r: Option<Chunk>)
    ensures r.Some? <==> p.RawBuffer? || (p.HasBuffer? && p.inner.Some?)
    ensures p.RawBuffer? ==> r == Some(p.chunk)
    ensures p.HasBuffer? ==> r == p.inner
  {
    match p
    case RawBuffer(c) => Some(c)
    case HasBuffer(inner) => inner
    case _ => None
  }

  /** Where a running `processQueue` waits before its chunk is started, with the chunk it took. */
  datatype Task = Resuming(chunk: Chunk) | Decoding(chunk: Chunk)

  /** The chunks that the waiting runs `ts` hold. */
  function Waiting(ts: seq<Task>): multiset<Chunk> {
    if ts == [] then multiset{} else multiset{ts[0].chunk} + Waiting(ts[1..])
  }

  lemma {:induction false} WaitingAppend(a: seq<Task>, b: seq<Task>)
    ensures Waiting(a + b) == Waiting(a) + Waiting(b)
    decreases |a|
  {
    if a == [] {
      assert a + b == b;
    } else {
      assert (a + b)[1..] == a[1..] + b;
      WaitingAppend(a[1..], b);
    }
  }

  /** Taking task `i` out of the list takes its chunk out of the waiting ones. */
  lemma WaitingRemove(ts: seq<Task>, i: nat)
    requires i < |ts|
    ensures Waiting(ts) == Waiting(ts[..i] + ts[i + 1..]) + multiset{ts[i].chunk}
    ensures |ts[..i] + ts[i + 1..]| == |ts| - 1
  {
    assert ts == ts[..i] + ([ts[i]] + ts[i + 1..]);
    WaitingAppend(ts[..i], [ts[i]] + ts[i + 1..]);
    assert ([ts[i]] + ts[i + 1..])[1..] == ts[i + 1..];
    WaitingAppend(ts[..i], ts[i + 1..]);
  }

  /** Changing how task `i` waits keeps the chunks waiting. */
  lemma WaitingReplace(ts: seq<Task>, i: nat, t: Task)
    requires i < |ts| && t.chunk == ts[i].chunk
    ensures Waiting(ts[i := t]) == Waiting(ts)
  {
    WaitingRemove(ts, i);
    WaitingRemove(ts[i := t], i);
    assert ts[i := t][..i] + ts[i := t][i + 1..] == ts[..i] + ts[i + 1..];
  }

  /** The chunks taken, then those still queued, are the chunks queued so far. */
  predicate InOrder(taken: seq<Chunk>, queue: seq<Chunk>, enqueued: seq<Chunk>) {
    taken + queue == enqueued
  }

  /** Every chunk taken off the queue waits in a task, was started or was dropped. */
  predicate Conserved(taken: seq<Chunk>, started: seq<Chunk>, dropped: seq<Chunk>, tasks: seq<Task>) {
    multiset(taken) == multiset(started) + multiset(dropped) + Waiting(tasks)
  }

  /** Taking the head of the queue into a new task keeps every chunk accounted for. */
  lemma TakeHead(taken: seq<Chunk>, queue: seq<Chunk>, enqueued: seq<Chunk>, started: seq<Chunk>,
                 dropped: seq<Chunk>, tasks: seq<Task>, t: Task)
    requires queue != [] && t.chunk == queue[0]
    requires taken + queue == enqueued && Conserved(taken, started, dropped, tasks)
    ensures (taken + [queue[0]]) + queue[1..] == enqueued
    ensures Conserved(taken + [queue[0]], started, dropped, tasks + [t])
  {
    assert queue == [queue[0]] + queue[1..];
    WaitingAppend(tasks, [t]);
    assert Waiting([t]) == multiset{t.chunk} + Waiting([t][1..]);
  }

  /** Task `i` starting its chunk moves the chunk from the waiting to the started ones. */
  lemma SettleStarted(taken: seq<Chunk>, started: seq<Chunk>, dropped: seq<Chunk>, tasks: seq<Task>, i: nat)
    requires i < |tasks| && Conserved(taken, started, dropped, tasks)
    ensures Conserved(taken, started + [tasks[i].chunk], dropped, tasks[..i] + tasks[i + 1..])
    ensures |tasks[..i] + tasks[i + 1..]| == |tasks| - 1
  {
    WaitingRemove(tasks, i);
  }

  /** Task `i` giving up on its chunk moves the chunk from the waiting to the dropped ones. */
  lemma SettleDropped(taken: seq<Chunk>, started: seq<Chunk>, dropped: seq<Chunk>, tasks: seq<Task>, i: nat)
    requires i < |tasks| && Conserved(taken, started, dropped, tasks)
    ensures Conserved(taken, started, dropped + [tasks[i].chunk], tasks[..i] + tasks[i + 1..])
    ensures |tasks[..i] + tasks[i + 1..]| == |tasks| - 1
  {
    WaitingRemove(tasks, i);
  }

  /** The audio context, shared through `window.niaAudioContext`. */
  class AudioContext {
    var suspended: bool

    constructor ()
      ensures suspended
    {
      suspended := true;
    }
  }

  class Window {
    var niaAudioContext: AudioContext?

    constructor ()
      ensures niaAudioContext == null
    {
      niaAudioContext := null;
    }
  }

  class Player {
    var queue: seq<Chunk>
    var isPlaying: bool
    var context: AudioContext
    /** The one-shot click/keydown listener that resumes the context. */
    var gestureArmed: bool
    /** Runs of `processQueue` waiting on `resume` or on decoding. */
    var tasks: seq<Task>
    /** Chunks started on the context whose `onended` has not fired yet. */
    var sounding: seq<Chunk>
    /** Retry timers scheduled after a failed decode and not yet fired. */
    var retries: nat
    /** Chunks handed to the output, and chunks given up on, in that order. */
    var started: seq<Chunk>
    var dropped: seq<Chunk>
    /** Every chunk ever queued, and every chunk ever taken off the queue. */
    ghost var enqueued: seq<Chunk>
    ghost var taken: seq<Chunk>

    /** Every chunk queued has been taken in order or is still queued, and every
        chunk taken is waiting in a task, started or dropped. */
    ghost predicate Accounted()
      reads this`taken, this`queue, this`enqueued, this`started, this`dropped, this`tasks
    {
      InOrder(taken, queue, enqueued) && Conserved(taken, started, dropped, tasks)
    }

    /** At most one run of `processQueue` is under way, and one is exactly when
        `isPlaying` is set. */
    ghost predicate Serial()
      reads this`tasks, this`sounding, this`isPlaying
    {
      |tasks| + |sounding| <= 1 && (isPlaying <==> |tasks| + |sounding| == 1)
    }

    /** `mounted`: an empty queue, not playing, and the window's context, created
        only when the window has none yet. */
    constructor (w: Window)
      modifies w
      ensures queue == [] && !isPlaying && tasks == [] && sounding == [] && retries == 0 && gestureArmed
      ensures started == [] && dropped == [] && Accounted() && Serial()
      ensures old(w.niaAudioContext) != null ==> context == old(w.niaAudioContext)
      ensures old(w.niaAudioContext) == null ==> fresh(context) && context.suspended
      ensures w.niaAudioContext == context
    {
      if w.niaAudioContext == null {
        w.niaAudioContext := new AudioContext();
      }
      queue, isPlaying, context, gestureArmed := [], false, w.niaAudioContext, true;
      tasks, sounding, retries, started, dropped := [], [], 0, [], [];
      enqueued, taken := [], [];
    }

    /** The first click or key press: resume a suspended context, then disarm. */
    method Gesture(resumes: bool)
      modifies this`gestureArmed, context
      ensures !gestureArmed
      ensures context.suspended == (old(context.suspended) && !(old(gestureArmed) && resumes))
    {
      if gestureArmed && context.suspended && resumes {
        context.suspended := false;
      }
      gestureArmed := false;
    }

    /** The `play_audio` handler: a payload that passes the input check is
        queued; any other is rejected and changes nothing. */
    method PlayAudio(p: Payload) returns (accepted: bool)
      requires Accounted()
      modifies this`queue, this`isPlaying, this`tasks, this`enqueued, this`taken
      ensures accepted <==> BufferOf(p).Some?
      ensures Accounted()
      ensures !accepted ==> queue == old(queue) && tasks == old(tasks) && isPlaying == old(isPlaying)
      ensures accepted ==> enqueued == old(enqueued) + [BufferOf(p).value]
      ensures old(Serial()) ==> Serial()
    {
      match BufferOf(p)
      case None =>
        accepted := false;
      case Some(c) =>
        PlayAudioChunk(c);
        accepted := true;
    }

    /** `playAudioChunk`: append at the tail; start draining only when not playing. */
    method PlayAudioChunk(c: Chunk)
      requires Accounted()
      modifies this`queue, this`isPlaying, this`tasks, this`enqueued, this`taken
      ensures Accounted() && enqueued == old(enqueued) + [c]
      ensures old(isPlaying) ==> queue == old(queue) + [c] && tasks == old(tasks) && isPlaying
      ensures !old(isPlaying) ==>
        var head := (old(queue) + [c])[0];
        && isPlaying && queue == (old(queue) + [c])[1..] && taken == old(taken) + [head]
        && tasks == old(tasks) + [if context.suspended then Resuming(head) else Decoding(head)]
      ensures old(Serial()) ==> Serial()
    {
      Enqueue(c);
      if !isPlaying {
        ProcessQueue();
      }
    }

    /** Append `c` at the tail of the queue. */
    method Enqueue(c: Chunk)
      requires Accounted()
      modifies this`queue, this`enqueued
      ensures Accounted() && queue == old(queue) + [c] && enqueued == old(enqueued) + [c]
    {
      assert taken + (queue + [c]) == enqueued + [c];
      queue, enqueued := queue + [c], enqueued + [c];
    }

    /** The synchronous part of `processQueue`: on an empty queue clear the flag;
        otherwise set it, take the head, and wait on the context's `resume` when
        it is suspended, else on decoding. */
    method ProcessQueue()
      requires Accounted()
      modifies this`queue, this`isPlaying, this`tasks, this`taken
      ensures Accounted()
      ensures old(queue) == [] ==> !isPlaying && queue == [] && tasks == old(tasks) && taken == old(taken)
      ensures old(queue) != [] ==>
        && isPlaying && queue == old(queue)[1..] && taken == old(taken) + [old(queue)[0]]
        && tasks == old(tasks) + [if context.suspended then Resuming(old(queue)[0]) else Decoding(old(queue)[0])]
      ensures old(tasks) == [] && sounding == [] ==> Serial()
    {
      if queue == [] {
        isPlaying := false;
        return;
      }
      isPlaying := true;
      var c := queue[0];
      var t := if context.suspended then Resuming(c) else Decoding(c);
      TakeHead(taken, queue, enqueued, started, dropped, tasks, t);
      queue, taken, tasks := queue[1..], taken + [c], tasks + [t];
    }

    /** The `resume` a task waits on fails: the chunk is dropped and the flag
        cleared, with no retry. */
    method ResumeFailed(i: nat)
      requires i < |tasks| && tasks[i].Resuming? && Accounted()
      modifies this`isPlaying, this`tasks, this`dropped
      ensures Accounted()
      ensures !isPlaying && dropped == old(dropped) + [old(tasks)[i].chunk]
      ensures tasks == old(tasks)[..i] + old(tasks)[i + 1..]
      ensures old(Serial()) ==> Serial()
    {
      var c := tasks[i].chunk;
      SettleDropped(taken, started, dropped, tasks, i);
      tasks, dropped, isPlaying := tasks[..i] + tasks[i + 1..], dropped + [c], false;
    }

    /** The `resume` a task waits on succeeds: the context runs and the run
        goes on to decode its chunk. */
    method Resumed(i: nat)
      requires i < |tasks| && tasks[i].Resuming? && Accounted()
      modifies this`tasks, context
      ensures Accounted() && !context.suspended
      ensures tasks == old(tasks)[i := Decoding(old(tasks)[i].chunk)]
      ensures old(Serial()) ==> Serial()
    {
      var c := tasks[i].chunk;
      context.suspended := false;
      WaitingReplace(tasks, i, Decoding(c));
      tasks := tasks[i := Decoding(c)];
    }

    /** The decode a task waits on succeeds: the chunk is started, and sounds
        until its `onended`. */
    method Decoded(i: nat)
      requires i < |tasks| && tasks[i].Decoding? && Accounted()
      modifies this`tasks, this`sounding, this`started
      ensures Accounted()
      ensures tasks == old(tasks)[..i] + old(tasks)[i + 1..]
      ensures started == old(started) + [old(tasks)[i].chunk]
      ensures sounding == old(sounding) + [old(tasks)[i].chunk]
      ensures old(Serial()) ==> Serial()
    {
      var c := tasks[i].chunk;
      SettleStarted(taken, started, dropped, tasks, i);
      tasks := tasks[..i] + tasks[i + 1..];
      started, sounding := started + [c], sounding + [c];
    }

    /** The decode a task waits on fails: the chunk is dropped, the flag
        cleared, and a retry scheduled only when chunks remain. */
    method DecodeFailed(i: nat)
      requires i < |tasks| && tasks[i].Decoding? && Accounted()
      modifies this`isPlaying, this`tasks, this`dropped, this`retries
      ensures Accounted()
      ensures tasks == old(tasks)[..i] + old(tasks)[i + 1..]
      ensures dropped == old(dropped) + [old(tasks)[i].chunk] && !isPlaying
      ensures retries == old(retries) + (if queue == [] then 0 else 1)
      ensures old(Serial()) ==> Serial()
    {
      var c := tasks[i].chunk;
      SettleDropped(taken, started, dropped, tasks, i);
      tasks, dropped, isPlaying, retries :=
        tasks[..i] + tasks[i + 1..], dropped + [c], false, retries + if queue == [] then 0 else 1;
    }

    /** A started source ends: it leaves the output and `processQueue` runs again. */
    method SourceEnded(i: nat)
      requires i < |sounding| && Accounted()
      modifies this`queue, this`isPlaying, this`tasks, this`sounding, this`taken
      ensures Accounted() && sounding == old(sounding)[..i] + old(sounding)[i + 1..]
      ensures old(queue) == [] ==> !isPlaying && tasks == old(tasks)
      ensures old(queue) != [] ==> isPlaying && queue == old(queue)[1..] && taken == old(taken) + [old(queue)[0]]
      ensures old(Serial()) ==> Serial()
    {
      sounding := sounding[..i] + sounding[i + 1..];
      ProcessQueue();
    }

    /** A retry timer fires and calls `processQueue` whatever the flag says. */
    method RetryFires()
      requires retries > 0 && Accounted()
      modifies this`queue, this`isPlaying, this`tasks, this`taken, this`retries
      ensures Accounted() && retries == old(retries) - 1
      ensures old(queue) == [] ==> !isPlaying && tasks == old(tasks)
      ensures old(queue) != [] ==>
        && isPlaying && queue == old(queue)[1..] && taken == old(taken) + [old(queue)[0]]
        && tasks == old(tasks) + [if context.suspended then Resuming(old(queue)[0]) else Decoding(old(queue)[0])]
    {
      retries := retries - 1;
      ProcessQueue();
    }

    /** The retry as evidently intended: it drains the queue only when nothing
        else is draining it. */
    method RetryFiresGuarded()
      requires retries > 0 && Accounted()
      modifies this`queue, this`isPlaying, this`tasks, this`taken, this`retries
      ensures Accounted() && retries == old(retries) - 1
      ensures old(isPlaying) ==> queue == old(queue) && tasks == old(tasks) && isPlaying
      ensures old(Serial()) ==> Serial()
    {
      retries := retries - 1;
      if !isPlaying {
        ProcessQueue();
      }
    }
  }

  /** A fresh mount whose first gesture resumed the context. */
  method MountedAndResumed() returns (p: Player)
    ensures fresh(p) && p.Accounted() && !p.context.suspended && !p.isPlaying
    ensures p.queue == [] && p.tasks == [] && p.sounding == [] && p.retries == 0
  {
    var w := new Window();
    p := new Player(w);
    p.Gesture(true);
  }

  /** The race, first step: chunk 1 is taken and decoding while chunk 2 waits. */
  method OneDecodingOneQueued(p: Player)
    requires p.Accounted() && !p.context.suspended && !p.isPlaying
    requires p.queue == [] && p.tasks == [] && p.sounding == [] && p.retries == 0
    modifies p
    ensures p.Accounted() && !p.context.suspended && p.isPlaying
    ensures p.queue == [Chunk(2)] && p.tasks == [Decoding(Chunk(1))] && p.sounding == [] && p.retries == 0
  {
    p.PlayAudioChunk(Chunk(1));
    assert p.tasks == [Decoding(Chunk(1))] && p.queue == [];
    p.PlayAudioChunk(Chunk(2));
  }

  /** The race, second step: chunk 1 fails to decode, which clears the flag
      and schedules a retry since chunk 2 is queued. */
  method FirstDecodeFails(p: Player)
    requires p.Accounted() && !p.context.suspended
    requires p.queue == [Chunk(2)] && p.tasks == [Decoding(Chunk(1))] && p.sounding == [] && p.retries == 0
    modifies p
    ensures p.Accounted() && !p.context.suspended && !p.isPlaying
    ensures p.tasks == [] && p.sounding == [] && p.queue == [Chunk(2)] && p.retries == 1
  {
    p.DecodeFailed(0);
  }

  /** The race, third step: chunk 3 arrives before the retry fires and, the
      flag being clear, starts a run on chunk 2; the retry then starts a second
      run on chunk 3 while the first is still under way. */
  method RetryStartsSecondRun(p: Player)
    requires p.Accounted() && !p.context.suspended
    requires p.tasks == [] && p.sounding == [] && p.queue == [Chunk(2)] && p.retries == 1 && !p.isPlaying
    modifies p
    ensures p.Accounted() && p.sounding == [] && !p.Serial()
    ensures p.tasks == [Decoding(Chunk(2)), Decoding(Chunk(3))]
  {
    p.PlayAudioChunk(Chunk(3));
    assert p.tasks == [Decoding(Chunk(2))] && p.queue == [Chunk(3)];
    p.RetryFires();
  }

  /** Both runs then decode, and both chunks sound together. */
  method BothSound(p: Player)
    requires p.Accounted() && p.sounding == [] && p.tasks == [Decoding(Chunk(2)), Decoding(Chunk(3))]
    modifies p
    ensures p.sounding == [Chunk(2), Chunk(3)]
  {
    p.Decoded(0);
    p.Decoded(0);
  }
}
