/** Values shared by every component: an optional value, the two speakers of a
    conversation and the four token counters the realtime API reports. */
module Common {

  datatype Option<+T> = None | Some(value: T)

  /** A returned value, or the message of the error the source throws. */
  datatype Result<+T> = Ok(value: T) | Err(error: string)

  /** A JavaScript string used in a truthiness test: `undefined` and `''` are falsy. */
  predicate Truthy(s: Option<string>) {
    s.Some? && s.value != ""
  }

  /** `a || b` on two optional strings. */
  function OrElse(a: Option<string>, b: Option<string>): (r: Option<string>)
    ensures Truthy(a) ==> r == a
    ensures !Truthy(a) ==> r == b
  {
    if Truthy(a) then a else b
  }

  /** `s || d` where the default `d` is a string. */
  function OrDefault(s: Option<string>, d: string): (r: string)
    ensures Truthy(s) ==> r == s.value
    ensures !Truthy(s) ==> r == d
  {
    if Truthy(s) then s.value else d
  }

  /** A JavaScript number used in a truthiness test: `null` and `0` are falsy. */
  predicate TruthyNumber(t: Option<int>) {
    t.Some? && t.value != 0
  }

  /** JavaScript's `a % b` for a positive divisor: the remainder takes the sign of `a`. */
  function JsRem(a: int, b: int): (r: int)
    requires b > 0
    ensures a >= 0 ==> 0 <= r < b && r == a % b
    ensures a < 0 ==> -b < r <= 0
    ensures a < 0 ==> -r == (-a) % b
  {
    if a >= 0 then a % b else -((-a) % b)
  }

  datatype Speaker = You | Agent

  function SpeakerName(s: Speaker): string {
    match s
    case You => "You"
    case Agent => "Agent"
  }

  /** The four running counters of one session. */
  datatype TokenUsage = TokenUsage(inputAudio: int, outputAudio: int, inputText: int, outputText: int)

  const ZeroUsage := TokenUsage(0, 0, 0, 0)

  predicate NonNegativeUsage(u: TokenUsage) {
    u.inputAudio >= 0 && u.outputAudio >= 0 && u.inputText >= 0 && u.outputText >= 0
  }

  /** Input plus output audio tokens, and input plus output text tokens. */
  function Totals(u: TokenUsage): (r: (int, int))
    ensures NonNegativeUsage(u) ==> r.0 >= u.inputAudio && r.0 >= u.outputAudio
    ensures NonNegativeUsage(u) ==> r.1 >= u.inputText && r.1 >= u.outputText
    ensures r.0 - u.outputAudio == u.inputAudio && r.1 - u.outputText == u.inputText
  {
    (u.inputAudio + u.outputAudio, u.inputText + u.outputText)
  }

  /** Counter-wise `<=`. */
  predicate UsageLe(a: TokenUsage, b: TokenUsage) {
    a.inputAudio <= b.inputAudio && a.outputAudio <= b.outputAudio &&
    a.inputText <= b.inputText && a.outputText <= b.outputText
  }
}

/** Stable insertion sort on an integer key: the order an `ORDER BY` on an
    indexed column gives, ties kept in row order. */
module Sorting {

  predicate SortedBy<T>(s: seq<T>, key: T -> int) {
    forall i, j :: 0 <= i < j < |s| ==> key(s[i]) <= key(s[j])
  }

  function Insert<T>(x: T, s: seq<T>, key: T -> int): (r: seq<T>)
    requires SortedBy(s, key)
    ensures SortedBy(r, key)
    ensures multiset(r) == multiset(s) + multiset{x}
    ensures |r| == |s| + 1
    ensures r[0] == x || (s != [] && r[0] == s[0])
  {
    if s == [] then [x]
    else if key(x) <= key(s[0]) then ConsSorted(x, s, key); [x] + s
    else
      var rest := Insert(x, s[1..], key);
      assert key(s[0]) <= key(rest[0]);
      ConsSorted(s[0], rest, key);
      assert s == [s[0]] + s[1..];
      [s[0]] + rest
  }

  lemma ConsSorted<T>(a: T, s: seq<T>, key: T -> int)
    requires SortedBy(s, key) && s != [] && key(a) <= key(s[0])
    ensures SortedBy([a] + s, key)
  {
    var r := [a] + s;
    forall i, j | 0 <= i < j < |r|
      ensures key(r[i]) <= key(r[j])
    {
      if i == 0 && j > 1 {
        assert key(s[0]) <= key(s[j - 1]);
      }
    }
  }

  function Sort<T>(s: seq<T>, key: T -> int): (r: seq<T>)
    ensures SortedBy(r, key)
    ensures multiset(r) == multiset(s)
    ensures |r| == |s|
  {
    if s == [] then []
    else
      assert s == [s[0]] + s[1..];
      Insert(s[0], Sort(s[1..], key), key)
  }

  /** Sorting an already sorted sequence changes nothing (stability). */
  lemma {:induction false} SortOfSorted<T>(s: seq<T>, key: T -> int)
    requires SortedBy(s, key)
    ensures Sort(s, key) == s
  {
    if s != [] {
      var t := s[1..];
      SortOfSorted(t, key);
      assert Sort(s, key) == Insert(s[0], t, key);
      if t == [] {
        assert Insert(s[0], t, key) == [s[0]];
      } else {
        assert key(s[0]) <= key(t[0]);
        assert Insert(s[0], t, key) == [s[0]] + t;
      }
      assert s == [s[0]] + t;
    }
  }
}
