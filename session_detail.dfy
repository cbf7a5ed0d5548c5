/** The page showing one saved session: its figures, the devices used and the
    conversation as a list of speech bubbles. */
module SessionDetailPage {
  import opened Common
  import opened SessionStore
  import opened SessionDisplay

  /** How a message bubble is laid out: the row direction, the avatar colour,
      the avatar icon and the bubble colour. */
  datatype Direction = Row | RowReverse
  datatype Palette = Primary | Secondary
  datatype Icon = Person | Bot
  datatype Layout = Layout(direction: Direction, avatar: Palette, icon: Icon, bubble: string)

  /** The user's messages sit on the left in the primary colour, every other
      speaker's on the right in the secondary colour. */
  function LayoutOf(s: Speaker): (l: Layout)
    ensures l.direction == Row <==> s == You
    ensures l.avatar == Primary <==> s == You
    ensures l.icon == Person <==> s == You
    ensures l.bubble == (if s == You then "primary.50" else "grey.100")
  {
    if s == You then Layout(Row, Primary, Person, "primary.50")
    else Layout(RowReverse, Secondary, Bot, "grey.100")
  }

  /** `device || 'Default'`. */
  function DeviceText(d: Option<string>): (r: string)
    ensures r == "Default" <==> !Truthy(d) || d.value == "Default"
    ensures Truthy(d) ==> r == d.value
  {
    OrDefault(d, "Default")
  }

  /** A bubble: speaker name, the time shown (the timestamp as milliseconds) and the text. */
  datatype Bubble = Bubble(layout: Layout, speaker: string, shownAt: int, text: string)

  function BubbleOf(m: MessageRow): Bubble {
    Bubble(LayoutOf(m.speaker), SpeakerName(m.speaker), m.timestamp, m.text)
  }

  /** One bubble per message, in the order the messages come. */
  function Bubbles(ms: seq<MessageRow>): (bs: seq<Bubble>)
    ensures |bs| == |ms|
    ensures forall k :: 0 <= k < |ms| ==> bs[k] == BubbleOf(ms[k])
  {
    seq(|ms|, k requires 0 <= k < |ms| => BubbleOf(ms[k]))
  }

  datatype View =
    | Loading
    | Detail(shownAt: int, duration: string, cost: string, model: string, usage: TokenUsage,
             mic: string, speaker: string, count: nat, bubbles: seq<Bubble>)

  class DetailPage {
    var session: Option<SessionRow>
    var messages: seq<MessageRow>
    var backCalls: nat

    constructor ()
      ensures session.None? && messages == [] && backCalls == 0
    {
      session, messages, backCalls := None, [], 0;
    }

    /** The load effect: a found session is shown with its messages; a missing
        one sends the user back to the list; a failed query is only logged. */
    method LoadSession(t: Tables, id: int, fails: bool)
      modifies this
      ensures fails ==> session == old(session) && messages == old(messages) && backCalls == old(backCalls)
      ensures !fails && GetSessionWithMessages(t, id).Some? ==>
        && session == Some(GetSessionWithMessages(t, id).value.0)
        && messages == GetSessionWithMessages(t, id).value.1
        && backCalls == old(backCalls)
      ensures !fails && GetSessionWithMessages(t, id).None? ==>
        session == old(session) && messages == old(messages) && backCalls == old(backCalls) + 1
    {
      if fails {
        return;
      }
      var data := GetSessionWithMessages(t, id);
      if data.Some? {
        session, messages := Some(data.value.0), data.value.1;
      } else {
        backCalls := backCalls + 1;
      }
    }

    /** Rendering: `Loading...` until a session is set, else its details, the
        device names with their fallback and one bubble per message in order;
        the date is `(start_time || 0) * 1000` as the page writes it. */
    function Render(): (v: View)
      reads this
      ensures v.Loading? <==> session.None?
      ensures v.Detail? ==> v.count == |messages| == |v.bubbles|
      ensures v.Detail? ==> forall k :: 0 <= k < |messages| ==>
        (v.bubbles[k].layout == LayoutOf(messages[k].speaker) && v.bubbles[k].shownAt == messages[k].timestamp
         && v.bubbles[k].text == messages[k].text)
      ensures v.Detail? ==> (v.mic == DeviceText(session.value.data.micDevice)
                             && v.speaker == DeviceText(session.value.data.speakerDevice))
      ensures v.Detail? ==> (v.shownAt == ShownStartAsWritten(session.value.data.startTime)
                             && v.duration == FormatDuration(session.value.data.durationSeconds))
    {
      match session
      case None => Loading
      case Some(s) =>
        Detail(ShownStartAsWritten(s.data.startTime), FormatDuration(s.data.durationSeconds),
               CentsText(s.data.totalCostCents), s.data.model, s.data.usage,
               DeviceText(s.data.micDevice), DeviceText(s.data.speakerDevice),
               |messages|, Bubbles(messages))
    }
  }

  /** After a load of a session just saved from a conversation, the page shows
      its messages in order, each with the speaker and text of the utterance. */
  lemma ShowsSavedConversation(t: Tables, d: SessionData, msgs: seq<NewMessage>, now: int)
    requires WellFormed(t)
    requires forall i, j :: 0 <= i < j < |msgs| ==> msgs[i].timestamp <= msgs[j].timestamp
    ensures var r := GetSessionWithMessages(Saved(t, d, msgs, now), t.nextSessionId);
      && r.Some? && |r.value.1| == |msgs|
      && forall k :: 0 <= k < |msgs| ==> r.value.1[k].speaker == msgs[k].speaker && r.value.1[k].text == msgs[k].text
  {
    SavedSessionReadsBack(t, d, msgs, now);
  }
}
