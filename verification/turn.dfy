/** Handling one submitted prompt (app.py lines 74-104): record the user
    turn, ask the model, record the reply, and append both to the sheet,
    with every failure contained to a warning or the fixed apology. */
module Turn {
  import opened ChatTypes

  /** The reply shown and saved when the model call fails. */
  const Apology: string := "抱歉，AI 暫時無法回應。"

  /** What the model call produced: its text, or a failure of any kind. */
  datatype ModelOutcome = Replied(text: string) | Failed

  /** The warnings shown when an append to the sheet fails. */
  datatype Warning = UserRowNotSaved | ModelRowNotSaved

  /** The session transcript together with the sheet's data rows. The sheet
      is taken to have no writer besides this session. */
  datatype State = State(transcript: seq<Message>, store: seq<Row>)

  /** What one pass of the handler leaves: the new state and the warnings
      it showed, in the order shown. */
  datatype Step = Step(state: State, warnings: seq<Warning>)

  /** One interaction of the session: what the input box returned and the
      outcomes of the outside calls made for it. */
  datatype Event = Event(input: Option<string>, timestamp: string, outcome: ModelOutcome,
                         userRowOk: bool, modelRowOk: bool)

  /** The input box produced a prompt: something was submitted and it is
      non-empty (Python truthiness of the walrus test). */
  predicate Submitted(input: Option<string>)
  {
    input.Some? && |input.value| > 0
  }

  /** The reply that is shown, kept in the transcript and saved. */
  function ReplyText(outcome: ModelOutcome): (reply: string)
  {
    match outcome
    case Replied(text) => text
    case Failed => Apology
  }

  /** Appending one row: a successful write adds it at the end, a failed one
      leaves the sheet as it was. */
  function AppendRow(store: seq<Row>, row: Row, ok: bool): (store': seq<Row>)
    ensures ok ==> |store'| == |store| + 1 && store'[..|store|] == store && store'[|store|] == row
    ensures !ok ==> store' == store
  {
    if ok then store + [row] else store
  }

  /** One pass of the input handler. Without a prompt nothing changes.
      With one, the transcript gains the user turn and then the reply, the
      sheet gains the rows whose writes succeed, in that order and with one
      shared timestamp, and each failed write gives its warning. */
  function Submit(s: State, input: Option<string>, timestamp: string, outcome: ModelOutcome,
                  userRowOk: bool, modelRowOk: bool): (r: Step)
    ensures !Submitted(input) ==> r == Step(s, [])
    ensures Submitted(input) ==>
      var t, t' := s.transcript, r.state.transcript;
      && |t'| == |t| + 2
      && t'[..|t|] == t
      && t'[|t|] == Message(User, input.value)
      && t'[|t| + 1].role == Assistant
      && (outcome.Replied? ==> t'[|t| + 1].content == outcome.text)
      && (outcome.Failed? ==> t'[|t| + 1].content == Apology)
    ensures Submitted(input) ==>
      var st, st' := s.store, r.state.store;
      && |st'| == |st| + (if userRowOk then 1 else 0) + (if modelRowOk then 1 else 0)
      && st'[..|st|] == st
      && (forall k :: |st| <= k < |st'| ==> st'[k].timestamp == timestamp)
      && (userRowOk ==> st'[|st|] == Row(timestamp, UserLabel, input.value))
      && (modelRowOk ==> st'[|st'| - 1] == Row(timestamp, ModelLabel, r.state.transcript[|s.transcript| + 1].content))
    ensures UserRowNotSaved in r.warnings <==> Submitted(input) && !userRowOk
    ensures ModelRowNotSaved in r.warnings <==> Submitted(input) && !modelRowOk
    ensures |r.warnings| <= 2
    ensures |r.warnings| == 2 ==> r.warnings == [UserRowNotSaved, ModelRowNotSaved]
  {
    if !Submitted(input) then Step(s, [])
    else
      var prompt := input.value;
      var withUser := s.transcript + [Message(User, prompt)];
      var store1 := AppendRow(s.store, Row(timestamp, UserLabel, prompt), userRowOk);
      var warn1 := if userRowOk then [] else [UserRowNotSaved];
      var reply := ReplyText(outcome);
      var withReply := withUser + [Message(Assistant, reply)];
      var store2 := AppendRow(store1, Row(timestamp, ModelLabel, reply), modelRowOk);
      var warn2 := if modelRowOk then [] else [ModelRowNotSaved];
      Step(State(withReply, store2), warn1 + warn2)
  }

  /** A failed write only warns: the transcript after a turn is the same
      whichever writes succeed. */
  lemma WriteFailureLeavesTranscript(s: State, input: Option<string>, timestamp: string,
                                     outcome: ModelOutcome, u1: bool, m1: bool, u2: bool, m2: bool)
    ensures Submit(s, input, timestamp, outcome, u1, m1).state.transcript
         == Submit(s, input, timestamp, outcome, u2, m2).state.transcript
    ensures Submit(s, input, timestamp, outcome, u1, m1).warnings == []
        <==> !Submitted(input) || (u1 && m1)
  {
  }

  /** When the model fails, the apology is both the reply kept in the
      transcript and the content of the saved model row. */
  lemma ApologyIsShownAndSaved(s: State, prompt: string, timestamp: string, userRowOk: bool)
    requires |prompt| > 0
    ensures var r := Submit(s, Some(prompt), timestamp, Failed, userRowOk, true).state;
      && r.transcript[|r.transcript| - 1] == Message(Assistant, Apology)
      && r.store[|r.store| - 1] == Row(timestamp, ModelLabel, Apology)
  {
  }

  /** The session after a sequence of interactions. */
  function Run(s: State, events: seq<Event>): (r: State)
    decreases |events|
  {
    if events == [] then s
    else
      var e := events[0];
      Run(Submit(s, e.input, e.timestamp, e.outcome, e.userRowOk, e.modelRowOk).state, events[1..])
  }

  /** How many of the interactions submitted a prompt. */
  function SubmittedCount(events: seq<Event>): (n: nat)
    ensures n <= |events|
    decreases |events|
  {
    if events == [] then 0
    else (if Submitted(events[0].input) then 1 else 0) + SubmittedCount(events[1..])
  }

  /** Over a session the transcript and the sheet only grow at their ends:
      nothing already there changes, the transcript gains exactly two
      entries per submitted prompt (so at most two per interaction) and the
      sheet at most two rows. */
  lemma {:induction false} RunAppendOnly(s: State, events: seq<Event>)
    ensures var r := Run(s, events);
      && |r.transcript| == |s.transcript| + 2 * SubmittedCount(events)
      && |r.transcript| <= |s.transcript| + 2 * |events|
      && r.transcript[..|s.transcript|] == s.transcript
      && |s.store| <= |r.store| <= |s.store| + 2 * SubmittedCount(events)
      && r.store[..|s.store|] == s.store
    decreases |events|
  {
    if events != [] {
      var e := events[0];
      var s1 := Submit(s, e.input, e.timestamp, e.outcome, e.userRowOk, e.modelRowOk).state;
      RunAppendOnly(s1, events[1..]);
      var r := Run(s, events);
      assert r == Run(s1, events[1..]);
      assert r.transcript[..|s.transcript|] == r.transcript[..|s1.transcript|][..|s.transcript|];
      assert r.store[..|s.store|] == r.store[..|s1.store|][..|s.store|];
    }
  }
}
