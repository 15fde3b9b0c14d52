/** The chat thread of `components/Thread.tsx`: the message list, the input
    box, and `send`, which appends the trimmed input as a message from
    "You" with an id derived from the list length. The timestamp comes from
    the clock and is a parameter here. */
module Thread {
  import opened Text

  datatype Message = Message(id: string, author: string, time: string, text: string)

  /** The thread's state: the messages and the input box. */
  datatype ThreadState = ThreadState(messages: seq<Message>, input: string)

  /** The author of messages typed into this thread. */
  const Me := "You"

  const InitialMessages: seq<Message> := [
    Message("m1", "Alex", "9:13 AM", "Welcome to the AI Tools workspace."),
    Message("m2", "Jamie", "9:15 AM", "Let\U{2019}s build the Slack-like UI from Figma."),
    Message("m3", "Sam", "9:18 AM", "I\U{2019}ll wire a quick prototype with Tailwind.")
  ]

  const Start := ThreadState(InitialMessages, "")

  /** The id `m${n}`. */
  function MessageId(n: nat): string {
    "m" + NatToString(n)
  }

  /** `send`: blank input (empty once trimmed) changes nothing; otherwise the
      trimmed input is appended as a message from "You", numbered one past
      the current length, and the input box is cleared. */
  function Send(t: ThreadState, time: string): (r: ThreadState)
    ensures AllSpace(t.input) ==> r == t
    ensures !AllSpace(t.input) ==>
      && |r.messages| == |t.messages| + 1
      && r.messages[..|t.messages|] == t.messages
      && r.messages[|t.messages|].id == MessageId(|t.messages| + 1)
      && r.messages[|t.messages|].author == Me
      && r.messages[|t.messages|].time == time
      && r.messages[|t.messages|].text != []
      && Trimmed(r.messages[|t.messages|].text)
      && r.input == ""
  {
    var trimmed := Trim(t.input);
    if trimmed == [] then t
    else ThreadState(t.messages + [Message(MessageId(|t.messages| + 1), Me, time, trimmed)], "")
  }

  /** The text of a sent message is the input with only surrounding
      whitespace removed. */
  lemma SendKeepsText(t: ThreadState, time: string)
    requires !AllSpace(t.input)
    ensures Send(t, time).messages[|t.messages|].text == Trim(t.input)
    ensures exists i: nat :: SurroundedBySpace(t.input, Send(t, time).messages[|t.messages|].text, i)
  {
  }

  /** The input box's key handler: Enter without Shift sends, any other key
      (Shift+Enter included) leaves the thread as it is. */
  function KeyDown(t: ThreadState, key: string, shift: bool, time: string): (r: ThreadState)
    ensures key == "Enter" && !shift ==> r == Send(t, time)
    ensures shift ==> r == t
    ensures key != "Enter" ==> r == t
  {
    if key == "Enter" && !shift then Send(t, time) else t
  }

  /** Things the user can do to the thread. */
  datatype Event = Type(text: string) | Press(key: string, shift: bool, time: string) | ClickSend(time: string)

  function Handle(t: ThreadState, e: Event): ThreadState {
    match e
    case Type(text) => t.(input := text)
    case Press(key, shift, time) => KeyDown(t, key, shift, time)
    case ClickSend(time) => Send(t, time)
  }

  function Run(t: ThreadState, events: seq<Event>): ThreadState
    decreases |events|
  {
    if |events| == 0 then t else Run(Handle(t, events[0]), events[1..])
  }

  /** Message `i` (from 0) has id `m{i+1}`. */
  predicate WellNumbered(ms: seq<Message>) {
    forall i :: 0 <= i < |ms| ==> ms[i].id == MessageId(i + 1)
  }

  /** Every message from "You" has text that is non-empty and trimmed. */
  predicate OwnMessagesTrimmed(ms: seq<Message>) {
    forall i :: 0 <= i < |ms| && ms[i].author == Me ==> ms[i].text != [] && Trimmed(ms[i].text)
  }

  predicate Inv(t: ThreadState) {
    WellNumbered(t.messages) && OwnMessagesTrimmed(t.messages)
  }

  /** Numbering by position makes ids unique. */
  lemma WellNumberedIdsUnique(ms: seq<Message>, i: nat, j: nat)
    requires WellNumbered(ms) && i < j < |ms|
    ensures ms[i].id != ms[j].id
  {
    if ms[i].id == ms[j].id {
      assert NatToString(i + 1) == MessageId(i + 1)[1..];
      assert NatToString(j + 1) == MessageId(j + 1)[1..];
      NatToStringInjective(i + 1, j + 1);
    }
  }

  /** The seeded messages are numbered m1, m2, m3 and none is from "You". */
  lemma StartInv()
    ensures Inv(Start)
  {
    assert NatToString(1) == "1" && NatToString(2) == "2" && NatToString(3) == "3";
  }

  /** Appending a message numbered one past the end, whose text is
      non-empty and trimmed if it is one's own, keeps the invariant. */
  lemma AppendKeepsInv(ms: seq<Message>, m: Message)
    requires WellNumbered(ms) && OwnMessagesTrimmed(ms)
    requires m.id == MessageId(|ms| + 1)
    requires m.author == Me ==> m.text != [] && Trimmed(m.text)
    ensures WellNumbered(ms + [m]) && OwnMessagesTrimmed(ms + [m])
  {
    var r := ms + [m];
    forall i | 0 <= i < |r|
      ensures r[i].id == MessageId(i + 1)
      ensures r[i].author == Me ==> r[i].text != [] && Trimmed(r[i].text)
    {
      if i < |ms| {
        assert r[i] == ms[i];
      }
    }
  }

  /** Sending keeps the numbering and the trimmed own messages, and never
      changes an earlier message. */
  lemma SendKeepsInv(t: ThreadState, time: string)
    requires Inv(t)
    ensures Inv(Send(t, time))
    ensures |Send(t, time).messages| >= |t.messages|
    ensures Send(t, time).messages[..|t.messages|] == t.messages
  {
    var r := Send(t, time);
    if !AllSpace(t.input) {
      var m := r.messages[|t.messages|];
      assert r.messages == t.messages + [m];
      AppendKeepsInv(t.messages, m);
    }
  }

  /** Every event keeps the invariant and the earlier messages. */
  lemma HandleKeepsInv(t: ThreadState, e: Event)
    requires Inv(t)
    ensures Inv(Handle(t, e))
    ensures |Handle(t, e).messages| >= |t.messages|
    ensures Handle(t, e).messages[..|t.messages|] == t.messages
  {
    match e
    case Type(text) =>
      assert Handle(t, e).messages == t.messages;
    case Press(key, shift, time) =>
      if key == "Enter" && !shift {
        SendKeepsInv(t, time);
        assert Handle(t, e) == Send(t, time);
      } else {
        assert Handle(t, e) == t;
      }
    case ClickSend(time) =>
      SendKeepsInv(t, time);
      assert Handle(t, e) == Send(t, time);
  }

  /** Over any interaction starting from the seeded thread, ids stay `m1,
      m2, ...` in order and are therefore pairwise distinct, and every own
      message is non-empty and trimmed. */
  lemma {:induction false} RunKeepsInv(t: ThreadState, events: seq<Event>)
    requires Inv(t)
    ensures Inv(Run(t, events))
    ensures forall i, j :: 0 <= i < j < |Run(t, events).messages| ==>
      Run(t, events).messages[i].id != Run(t, events).messages[j].id
    ensures |Run(t, events).messages| >= |t.messages|
    ensures Run(t, events).messages[..|t.messages|] == t.messages
    decreases |events|
  {
    if |events| > 0 {
      var t' := Handle(t, events[0]);
      HandleKeepsInv(t, events[0]);
      RunKeepsInv(t', events[1..]);
      var ms := Run(t, events).messages;
      assert ms[..|t'.messages|][..|t.messages|] == ms[..|t.messages|];
    }
    var ms := Run(t, events).messages;
    forall i, j | 0 <= i < j < |ms|
      ensures ms[i].id != ms[j].id
    {
      WellNumberedIdsUnique(ms, i, j);
    }
  }
}
