/** How the rows the input handler writes read back through the history
    loader: the sheet reader returns each row's role and content columns,
    and a later session rebuilds its transcript from them. */
module RoundTrip {
  import opened ChatTypes
  import opened Hydration
  import opened Turn

  /** The record the sheet reader returns for a written row: the label
      under the role column and the content under the content column, each
      as written. */
  function RecordOf(row: Row): (rec: Record)
  {
    Record(Some(row.roleLabel), Some(row.content))
  }

  /** The records the reader returns for a list of written rows, in order. */
  function RecordsOf(rows: seq<Row>): (recs: seq<Record>)
    ensures |recs| == |rows|
    ensures forall i :: 0 <= i < |rows| ==> recs[i] == RecordOf(rows[i])
  {
    seq(|rows|, i requires 0 <= i < |rows| => RecordOf(rows[i]))
  }

  /** Reading rows written one after another gives their records one after
      another. */
  lemma RecordsOfAppend(a: seq<Row>, b: seq<Row>)
    ensures RecordsOf(a + b) == RecordsOf(a) + RecordsOf(b)
  {
  }

  /** The transcript tracks the sheet from row `from` on: loading those rows
      gives back exactly the transcript. */
  predicate TracksFrom(s: State, from: nat)
  {
    from <= |s.store| && Keep(RecordsOf(s.store[from..])) == s.transcript
  }

  /** Reloading the sheet from row `from` on gives fewer messages than the
      transcript holds: some entry of the transcript has no row behind it. */
  predicate LagsFrom(s: State, from: nat)
  {
    from <= |s.store| && |Keep(RecordsOf(s.store[from..]))| < |s.transcript|
  }

  /** Reloading a sheet from row `from` on, after rows were appended, gives
      the earlier reload followed by the reload of the new rows. */
  lemma ReloadAppend(store: seq<Row>, from: nat, written: seq<Row>)
    requires from <= |store|
    ensures Keep(RecordsOf((store + written)[from..]))
         == Keep(RecordsOf(store[from..])) + Keep(RecordsOf(written))
  {
    assert (store + written)[from..] == store[from..] + written;
    RecordsOfAppend(store[from..], written);
    KeepAppend(RecordsOf(store[from..]), RecordsOf(written));
  }

  /** The rows a turn adds to the sheet: the user row if its write
      succeeds, then the model row if its write succeeds. */
  function TurnRows(timestamp: string, prompt: string, reply: string,
                    userRowOk: bool, modelRowOk: bool): (rows: seq<Row>)
  {
    (if userRowOk then [Row(timestamp, UserLabel, prompt)] else [])
    + (if modelRowOk then [Row(timestamp, ModelLabel, reply)] else [])
  }

  /** A submitted turn adds exactly its surviving rows to the end of the
      sheet, and two entries to the transcript. */
  lemma SubmitSaves(s: State, prompt: string, timestamp: string, outcome: ModelOutcome,
                    userRowOk: bool, modelRowOk: bool)
    requires |prompt| > 0
    ensures var r := Submit(s, Some(prompt), timestamp, outcome, userRowOk, modelRowOk).state;
      && r.store == s.store + TurnRows(timestamp, prompt, ReplyText(outcome), userRowOk, modelRowOk)
      && |r.transcript| == |s.transcript| + 2
  {
  }

  /** Unless both rows are saved and the reply is non-empty, reloading the
      rows of a turn gives at most one message. */
  lemma LostRowReloadsAtMostOne(timestamp: string, prompt: string, reply: string,
                                userRowOk: bool, modelRowOk: bool)
    requires |prompt| > 0
    requires !userRowOk || !modelRowOk || reply == []
    ensures |Keep(RecordsOf(TurnRows(timestamp, prompt, reply, userRowOk, modelRowOk)))| <= 1
  {
    if userRowOk && modelRowOk {
      TurnRowsReload(timestamp, prompt, reply);
    }
  }

  /** The two rows of a turn load back as its user message and, when the
      reply is non-empty, its reply. */
  lemma {:induction false} TurnRowsReload(timestamp: string, prompt: string, reply: string)
    requires |prompt| > 0
    ensures var recs := RecordsOf([Row(timestamp, UserLabel, prompt), Row(timestamp, ModelLabel, reply)]);
      Keep(recs) == [Message(User, prompt)] + (if |reply| > 0 then [Message(Assistant, reply)] else [])
  {
    var recs := RecordsOf([Row(timestamp, UserLabel, prompt), Row(timestamp, ModelLabel, reply)]);
    assert recs[..1] == [recs[0]];
    assert recs[..1][..0] == [];
  }

  /** The rows a turn writes load back as the two messages of that turn: the
      prompt, which is non-empty, and the reply exactly when it is non-empty.
      This rests on `RecordOf`: the reader returns each written cell
      unchanged. */
  lemma SubmitReloads(s: State, from: nat, prompt: string, timestamp: string, outcome: ModelOutcome)
    requires from <= |s.store| && |prompt| > 0
    ensures var r := Submit(s, Some(prompt), timestamp, outcome, true, true).state;
      var reply := ReplyText(outcome);
      Keep(RecordsOf(r.store[from..]))
        == Keep(RecordsOf(s.store[from..])) + [Message(User, prompt)]
           + (if |reply| > 0 then [Message(Assistant, reply)] else [])
  {
    var reply := ReplyText(outcome);
    SubmitSaves(s, prompt, timestamp, outcome, true, true);
    ReloadAppend(s.store, from, TurnRows(timestamp, prompt, reply, true, true));
    TurnRowsReload(timestamp, prompt, reply);
  }

  /** A turn whose writes both succeed and whose reply is non-empty keeps the
      transcript tracking the sheet. */
  lemma SubmitKeepsTracking(s: State, from: nat, prompt: string, timestamp: string, outcome: ModelOutcome)
    requires TracksFrom(s, from)
    requires |prompt| > 0 && |ReplyText(outcome)| > 0
    ensures TracksFrom(Submit(s, Some(prompt), timestamp, outcome, true, true).state, from)
  {
    SubmitReloads(s, from, prompt, timestamp, outcome);
  }

  /** A failed write, or an empty reply, breaks the tracking: the transcript
      gains two entries but reloading gains at most one. */
  lemma {:induction false} LostRowBreaksTracking(s: State, from: nat, prompt: string, timestamp: string,
                                                 outcome: ModelOutcome, userRowOk: bool, modelRowOk: bool)
    requires TracksFrom(s, from)
    requires |prompt| > 0
    requires !userRowOk || !modelRowOk || ReplyText(outcome) == []
    ensures !TracksFrom(Submit(s, Some(prompt), timestamp, outcome, userRowOk, modelRowOk).state, from)
    ensures LagsFrom(Submit(s, Some(prompt), timestamp, outcome, userRowOk, modelRowOk).state, from)
  {
    SubmitSaves(s, prompt, timestamp, outcome, userRowOk, modelRowOk);
    ReloadAppend(s.store, from, TurnRows(timestamp, prompt, ReplyText(outcome), userRowOk, modelRowOk));
    LostRowReloadsAtMostOne(timestamp, prompt, ReplyText(outcome), userRowOk, modelRowOk);
  }

  /** No later interaction closes a lag: a turn adds two transcript entries
      and at most two reloadable messages. */
  lemma SubmitKeepsLag(s: State, from: nat, e: Event)
    requires LagsFrom(s, from)
    ensures LagsFrom(Submit(s, e.input, e.timestamp, e.outcome, e.userRowOk, e.modelRowOk).state, from)
  {
    if Submitted(e.input) {
      var written := TurnRows(e.timestamp, e.input.value, ReplyText(e.outcome), e.userRowOk, e.modelRowOk);
      SubmitSaves(s, e.input.value, e.timestamp, e.outcome, e.userRowOk, e.modelRowOk);
      ReloadAppend(s.store, from, written);
      assert |Keep(RecordsOf(written))| <= |written| <= 2;
    }
  }

  /** A lag, once there, lasts for the rest of the session. */
  lemma {:induction false} RunKeepsLag(s: State, from: nat, events: seq<Event>)
    requires LagsFrom(s, from)
    ensures LagsFrom(Run(s, events), from)
    decreases |events|
  {
    if events != [] {
      var e := events[0];
      SubmitKeepsLag(s, from, e);
      RunKeepsLag(Submit(s, e.input, e.timestamp, e.outcome, e.userRowOk, e.modelRowOk).state,
                  from, events[1..]);
    }
  }

  /** A turn whose row is lost, or whose reply is empty, leaves the
      transcript ahead of the reloaded sheet for the rest of the session,
      whatever the later interactions are. */
  lemma LostRowDivergesForever(s: State, from: nat, prompt: string, timestamp: string,
                               outcome: ModelOutcome, userRowOk: bool, modelRowOk: bool,
                               later: seq<Event>)
    requires TracksFrom(s, from)
    requires |prompt| > 0
    requires !userRowOk || !modelRowOk || ReplyText(outcome) == []
    ensures var r := Run(Submit(s, Some(prompt), timestamp, outcome, userRowOk, modelRowOk).state, later);
      && from <= |r.store|
      && |Keep(RecordsOf(r.store[from..]))| < |r.transcript|
      && !TracksFrom(r, from)
  {
    LostRowBreaksTracking(s, from, prompt, timestamp, outcome, userRowOk, modelRowOk);
    RunKeepsLag(Submit(s, Some(prompt), timestamp, outcome, userRowOk, modelRowOk).state, from, later);
  }

  /** A fresh session loaded from the sheet tracks it from the first of the
      newest rows the loader looked at. */
  lemma HydrateTracks(store: seq<Row>)
    ensures var t := Hydrate(None, Records(RecordsOf(store)));
      var from := |store| - Min(|store|, HistoryLimit);
      TracksFrom(State(t, store), from)
  {
    var from := |store| - Min(|store|, HistoryLimit);
    assert RecordsOf(store[from..]) == Recent(RecordsOf(store));
  }

  /** Loading a sheet whose last rows are `written` (no more of them than the
      loader looks at) ends with what loading `written` alone gives. */
  lemma HydrateEndsWith(rows: seq<Row>, written: seq<Row>)
    requires |written| <= HistoryLimit
    ensures var older := RecordsOf(rows)[|rows| - Min(|rows|, HistoryLimit - |written|)..];
      Keep(Recent(RecordsOf(rows + written))) == Keep(older) + Keep(RecordsOf(written))
  {
    var older := RecordsOf(rows)[|rows| - Min(|rows|, HistoryLimit - |written|)..];
    RecordsOfAppend(rows, written);
    assert Recent(RecordsOf(rows + written)) == older + RecordsOf(written);
    KeepAppend(older, RecordsOf(written));
  }

  /** Writing a turn and loading a fresh session afterwards gives back that
      turn as the last two entries, whatever the sheet held before. */
  lemma WriteThenHydrate(s: State, prompt: string, timestamp: string, outcome: ModelOutcome)
    requires |prompt| > 0 && |ReplyText(outcome)| > 0
    ensures var r := Submit(s, Some(prompt), timestamp, outcome, true, true).state;
      var t := Hydrate(None, Records(RecordsOf(r.store)));
      && |t| >= 2
      && t[|t| - 2] == Message(User, prompt)
      && t[|t| - 1] == Message(Assistant, ReplyText(outcome))
  {
    var r := Submit(s, Some(prompt), timestamp, outcome, true, true).state;
    var reply := ReplyText(outcome);
    var written := TurnRows(timestamp, prompt, reply, true, true);
    SubmitSaves(s, prompt, timestamp, outcome, true, true);
    assert r.store == s.store + written;
    HydrateEndsWith(s.store, written);
    TurnRowsReload(timestamp, prompt, reply);
    var older := RecordsOf(s.store)[|s.store| - Min(|s.store|, HistoryLimit - 2)..];
    var t := Hydrate(None, Records(RecordsOf(r.store)));
    assert t == Keep(older) + [Message(User, prompt), Message(Assistant, reply)];
  }

  /** A session that starts tracking the sheet keeps tracking it as long as
      every write succeeds and every reply is non-empty. */
  lemma {:induction false} RunKeepsTracking(s: State, from: nat, events: seq<Event>)
    requires TracksFrom(s, from)
    requires forall k :: 0 <= k < |events| ==>
      events[k].userRowOk && events[k].modelRowOk && |ReplyText(events[k].outcome)| > 0
    ensures TracksFrom(Run(s, events), from)
    decreases |events|
  {
    if events != [] {
      var e := events[0];
      if Submitted(e.input) {
        SubmitKeepsTracking(s, from, e.input.value, e.timestamp, e.outcome);
      }
      var s1 := Submit(s, e.input, e.timestamp, e.outcome, e.userRowOk, e.modelRowOk).state;
      assert forall k :: 0 <= k < |events[1..]| ==> events[1..][k] == events[k + 1];
      RunKeepsTracking(s1, from, events[1..]);
    }
  }

  /** A session that starts on a sheet holding only its header row, in which
      every write succeeds and every reply is non-empty, is given back entry
      for entry by a later fresh session, provided the sheet holds no more
      rows than the loader looks at. */
  lemma SessionReloads(events: seq<Event>)
    requires forall k :: 0 <= k < |events| ==>
      events[k].userRowOk && events[k].modelRowOk && |ReplyText(events[k].outcome)| > 0
    requires |Run(State([], []), events).store| <= HistoryLimit
    ensures var r := Run(State([], []), events);
      Hydrate(None, Records(RecordsOf(r.store))) == r.transcript
  {
    var r := Run(State([], []), events);
    assert TracksFrom(State([], []), 0);
    RunKeepsTracking(State([], []), 0, events);
    HydrateTracks(r.store);
    assert r.store[0..] == r.store;
  }
}
