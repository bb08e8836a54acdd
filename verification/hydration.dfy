/** Loading the recent history from the sheet into a fresh session
    (app.py lines 47-66). */
module Hydration {
  import opened ChatTypes

  /** How many of the newest sheet records the loader looks at. */
  const HistoryLimit: nat := 20

  /** The smaller of two counts, as in min(N, 20). */
  function Min(a: int, b: int): (m: int)
  {
    if a <= b then a else b
  }

  /** Outcome of reading every record of the sheet: the records in sheet
      order, or a failure (an empty or malformed sheet raises). */
  datatype SheetRead = Records(records: seq<Record>) | ReadFailed

  /** The records the loader looks at: the newest `HistoryLimit` of them, or
      all of them when there are no more than that. */
  function Recent(records: seq<Record>): (recent: seq<Record>)
    ensures |recent| == Min(|records|, HistoryLimit)
    ensures recent == records[|records| - |recent|..]
  {
    if |records| > HistoryLimit then records[|records| - HistoryLimit..] else records
  }

  /** The transcript built from `records` by the loader's loop: every usable
      record, in order, turned into a message; the others skipped. Defined
      the way the loop builds it, one record appended at a time. */
  function Keep(records: seq<Record>): (msgs: seq<Message>)
    ensures |msgs| <= |records|
    ensures forall j :: 0 <= j < |msgs| ==> |msgs[j].content| > 0
    decreases |records|
  {
    if records == [] then []
    else
      var init := Keep(records[..|records| - 1]);
      var last := records[|records| - 1];
      if Usable(last) then init + [ToMessage(last)] else init
  }

  /** The positions of the usable records, in increasing order. */
  function UsableIndices(records: seq<Record>): (idx: seq<nat>)
    ensures forall j :: 0 <= j < |idx| ==> idx[j] < |records| && Usable(records[idx[j]])
    ensures forall i :: 0 <= i < |records| && Usable(records[i]) ==> i in idx
    ensures forall j, k :: 0 <= j < k < |idx| ==> idx[j] < idx[k]
    decreases |records|
  {
    if records == [] then []
    else
      var n := |records| - 1;
      var init := UsableIndices(records[..n]);
      if Usable(records[n]) then init + [n] else init
  }

  /** `Keep` is the in-order filter-then-map: its j-th message is the message
      of the j-th usable record, and nothing else is in it. */
  lemma {:induction false} KeepIsFilterMap(records: seq<Record>)
    ensures |Keep(records)| == |UsableIndices(records)|
    ensures forall j :: 0 <= j < |Keep(records)| ==>
      Keep(records)[j] == ToMessage(records[UsableIndices(records)[j]])
    decreases |records|
  {
    if records != [] {
      var n := |records| - 1;
      var init := records[..n];
      KeepIsFilterMap(init);
      forall j | 0 <= j < |Keep(init)|
        ensures Keep(records)[j] == ToMessage(records[UsableIndices(records)[j]])
      {
        assert records[UsableIndices(init)[j]] == init[UsableIndices(init)[j]];
      }
    }
  }

  /** Loading the concatenation of two record lists loads each in turn. */
  lemma {:induction false} KeepAppend(a: seq<Record>, b: seq<Record>)
    ensures Keep(a + b) == Keep(a) + Keep(b)
    decreases |b|
  {
    if b == [] {
      assert a + b == a;
    } else {
      var n := |b| - 1;
      assert (a + b)[..|a + b| - 1] == a + b[..n];
      KeepAppend(a, b[..n]);
    }
  }

  /** Nothing is dropped exactly when every record is usable, and then each
      record gives the message at its own position. */
  lemma {:induction false} KeepAllUsable(records: seq<Record>)
    ensures |Keep(records)| == |records| <==> forall i :: 0 <= i < |records| ==> Usable(records[i])
    ensures (forall i :: 0 <= i < |records| ==> Usable(records[i])) ==>
      forall i :: 0 <= i < |records| ==> Keep(records)[i] == ToMessage(records[i])
    decreases |records|
  {
    if records != [] {
      var n := |records| - 1;
      var init := records[..n];
      KeepAllUsable(init);
      if !Usable(records[n]) {
        assert |Keep(records)| < |records|;
      } else if |Keep(records)| != |records| {
        assert exists i :: 0 <= i < n && !Usable(init[i]);
      }
    }
  }

  /** The transcript a session starts with. An existing transcript is kept
      untouched; otherwise it starts empty and is filled from the newest
      records, and a failed read leaves it empty. */
  function Hydrate(existing: Option<seq<Message>>, read: SheetRead): (transcript: seq<Message>)
    ensures existing.Some? ==> transcript == existing.value
    ensures existing.None? && read.ReadFailed? ==> transcript == []
    ensures existing.None? && read.Records? ==>
      |transcript| <= Min(|read.records|, HistoryLimit)
    ensures existing.None? ==> forall j :: 0 <= j < |transcript| ==> |transcript[j].content| > 0
  {
    match existing
    case Some(t) => t
    case None =>
      match read
      case ReadFailed => []
      case Records(records) => Keep(Recent(records))
  }

  /** A fresh session's transcript is the in-order filter-then-map of the
      newest records: its j-th entry comes from the j-th usable record among
      them, with the role "user" exactly for the label "user". */
  lemma HydrateIsFilterMapOfRecent(records: seq<Record>)
    ensures var t := Hydrate(None, Records(records));
      var recent := Recent(records);
      var idx := UsableIndices(recent);
      && |t| == |idx|
      && forall j :: 0 <= j < |t| ==>
        && t[j] == ToMessage(recent[idx[j]])
        && recent[idx[j]] == records[|records| - |recent| + idx[j]]
        && (t[j].role == User <==> recent[idx[j]].role.value == UserLabel)
  {
    KeepIsFilterMap(Recent(records));
  }

  /** When every record is usable, a fresh session holds exactly the newest
      min(N, 20) of them, in sheet order (the last 20 of 25 records are `records[5..25]`). */
  lemma HydrateAllUsable(records: seq<Record>)
    requires forall i :: 0 <= i < |records| ==> Usable(records[i])
    ensures var t := Hydrate(None, Records(records));
      && |t| == Min(|records|, HistoryLimit)
      && forall j :: 0 <= j < |t| ==> t[j] == ToMessage(records[|records| - |t| + j])
  {
    var recent := Recent(records);
    var off := |records| - |recent|;
    assert forall i :: 0 <= i < |recent| ==> recent[i] == records[off + i];
    KeepAllUsable(recent);
    var t := Hydrate(None, Records(records));
    assert t == Keep(recent);
    assert |t| == |recent|;
  }

  /** The session start as the loop in app.py runs it: the loop over the
      newest records, appending each usable one. */
  method InitSession(existing: Option<seq<Message>>, read: SheetRead) returns (transcript: seq<Message>)
    ensures transcript == Hydrate(existing, read)
  {
    if existing.Some? {
      return existing.value;
    }
    transcript := [];
    if read.ReadFailed? {
      return;
    }
    var records := read.records;
    var recent := if |records| > HistoryLimit then records[|records| - HistoryLimit..] else records;
    var i := 0;
    while i < |recent|
      invariant 0 <= i <= |recent|
      invariant transcript == Keep(recent[..i])
    {
      var row := recent[i];
      assert recent[..i + 1][..i] == recent[..i];
      if Present(row.role) && Present(row.content) {
        var role := if row.role.value == UserLabel then User else Assistant;
        transcript := transcript + [Message(role, row.content.value)];
      }
      i := i + 1;
    }
    assert recent[..|recent|] == recent;
  }
}
