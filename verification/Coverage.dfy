/**
 No row is lost between the history window and the compaction events.

 Any number of turns, admin compactions and trims work on the transcript of one
 user, each on a snapshot that may be older than the live watermark.  A row at or
 below the watermark must be hidden by the converter or lie in the range of an
 event.
 */
module Coverage {
  import opened Messages
  import opened History
  import opened Watermark

  const BATCH_ROWS := 32
  const MAX_ROWS_PER_TURN := 200

  // ---- Transcript and ledger ----------------------------------------------------

  predicate InRange(e: Event, n: nat) {
    e.min <= n <= e.max
  }

  ghost predicate InEvents(events: seq<Event>, n: nat) {
    exists e :: e in events && InRange(e, n)
  }

  ghost predicate Covered(rd: Reader, rows: seq<Row>, l: Ledger) {
    forall j :: 0 <= j < |rows| && rows[j].seqNo <= Mark(l.watermark) && rd.Seen(rows, j) ==>
      InEvents(l.events, rows[j].seqNo)
  }

  ghost predicate RangesBelow(l: Ledger) {
    forall e :: e in l.events ==> e.min <= e.max <= Mark(l.watermark)
  }

  // A range that a trim or an overflow recorded lies above everything recorded
  // before it.
  ghost predicate RangesIncrease(events: seq<Event>) {
    forall a, b :: 0 <= a < b < |events| && events[b].byTrim ==> events[a].max < events[b].min
  }

  function LastSeq(rows: seq<Row>): nat {
    if rows == [] then 0 else rows[|rows| - 1].seqNo
  }

  ghost predicate Sound(rd: Reader, rows: seq<Row>, l: Ledger) {
    && Stored(rows) && Mark(l.watermark) <= LastSeq(rows)
    && Covered(rd, rows, l) && RangesBelow(l) && RangesIncrease(l.events)
  }

  // ---- The rows whose numbers a conversion carries ---------------------------------

  lemma {:induction false} NumbersConcat(a: seq<Message>, b: seq<Message>)
    ensures Numbers(a + b) == Numbers(a) + Numbers(b)
  {
    if b == [] {
      assert a + b == a && Numbers(a) + [] == Numbers(a);
    } else {
      var init, n := b[..|b| - 1], Number(b[|b| - 1]);
      NumbersConcat(a, init);
      assert (a + b)[..|a + b| - 1] == a + init;
      Assoc(Numbers(a), Numbers(init), if n.Some? then [n.value] else []);
    }
  }

  lemma {:induction false} ResultsUnnumbered(rd: Reader, tools: seq<Interaction>)
    ensures Numbers(rd.Results(tools)) == []
  {
    if tools != [] {
      ResultsUnnumbered(rd, tools[..|tools| - 1]);
      var results := rd.Results(tools);
      assert results[..|results| - 1] == rd.Results(tools[..|tools| - 1]);
    }
  }

  lemma OneNumber(m: Message)
    ensures Numbers([m]) == if Number(m).Some? then [Number(m).value] else []
  {
    assert Numbers([m][..0]) == [];
  }

  lemma ShownNumber(rd: Reader, prev: string, r: Row)
    ensures forall n :: n in Numbers(rd.Shown(prev, r)) <==> n == r.seqNo
  {
    var text := rd.WithMarker(prev, r);
    OneNumber(User(text, Some(r.seqNo)));
    OneNumber(Assistant(text, [], Some(r.seqNo)));
    if !r.inbound && r.tools != [] {
      var call := Assistant("", rd.Requests(r.tools), Some(r.seqNo));
      OneNumber(call);
      ResultsUnnumbered(rd, r.tools);
      NumbersConcat([call], rd.Results(r.tools));
      NumbersConcat([call] + rd.Results(r.tools), [Assistant(text, [], Some(r.seqNo))]);
    }
  }

  // The carry into a slice hides no row that the transcript shows.
  predicate Lenient(rd: Reader, rows: seq<Row>, p: nat, c: Carry)
    requires p <= |rows|
  {
    c.afterPrompt ==> p > 0 && rd.Prompt(rows[p - 1])
  }

  predicate Numbered(rows: seq<Row>, p: nat, q: nat, n: nat)
    requires q <= |rows|
  {
    exists j :: p <= j < q && rows[j].seqNo == n
  }

  // Every row from p to q that the transcript shows has its number among ns, and
  // every number among ns is that of such a row.
  ghost predicate NumbersOf(rd: Reader, rows: seq<Row>, p: nat, q: nat, ns: seq<nat>)
    requires p <= q <= |rows|
  {
    && (forall j :: p <= j < q && rd.Seen(rows, j) ==> rows[j].seqNo in ns)
    && (forall n :: n in ns ==> Numbered(rows, p, q, n))
  }

  // Whether row j of a slice is shown.
  predicate ShownAt(rd: Reader, c: Carry, slice: seq<Row>, j: nat)
    requires j < |slice|
  {
    rd.Visible(slice[j], if j == 0 then c.afterPrompt else rd.Prompt(slice[j - 1]))
  }

  predicate ShownWith(rd: Reader, c: Carry, slice: seq<Row>, n: nat) {
    exists j :: 0 <= j < |slice| && slice[j].seqNo == n && ShownAt(rd, c, slice, j)
  }

  lemma CarriedPrompt(rd: Reader, c: Carry, slice: seq<Row>)
    ensures rd.CarryAfter(c, slice).afterPrompt == if slice == [] then c.afterPrompt else rd.Prompt(slice[|slice| - 1])
  {
  }

  lemma ShownSnoc(rd: Reader, c: Carry, slice: seq<Row>, r: Row, n: nat)
    ensures ShownWith(rd, c, slice + [r], n) <==>
      ShownWith(rd, c, slice, n) ||
      (r.seqNo == n && rd.Visible(r, if slice == [] then c.afterPrompt else rd.Prompt(slice[|slice| - 1])))
  {
    var more := slice + [r];
    if ShownWith(rd, c, slice, n) {
      var j :| 0 <= j < |slice| && slice[j].seqNo == n && ShownAt(rd, c, slice, j);
      assert more[j].seqNo == n && ShownAt(rd, c, more, j);
    }
    assert more[|slice|] == r;
    assert ShownAt(rd, c, more, |slice|) == rd.Visible(r, if slice == [] then c.afterPrompt else rd.Prompt(slice[|slice| - 1]));
    if ShownWith(rd, c, more, n) {
      var j :| 0 <= j < |more| && more[j].seqNo == n && ShownAt(rd, c, more, j);
      if j < |slice| {
        assert slice[j].seqNo == n && ShownAt(rd, c, slice, j);
      }
    }
  }

  // A conversion carries the numbers of the rows that are shown.
  lemma {:induction false} NumberedIffShown(rd: Reader, c: Carry, slice: seq<Row>, n: nat)
    ensures n in Numbers(rd.Converted(c, slice)) <==> ShownWith(rd, c, slice, n)
  {
    if slice == [] {
      NothingShown(rd, c, n);
    } else {
      var init, last := slice[..|slice| - 1], slice[|slice| - 1];
      assert slice == init + [last];
      NumberedIffShown(rd, c, init, n);
      LastRow(rd, c, init, last, n);
    }
  }

  lemma NothingShown(rd: Reader, c: Carry, n: nat)
    ensures n !in Numbers(rd.Converted(c, [])) && !ShownWith(rd, c, [], n)
  {
    assert rd.Converted(c, []) == [] && Numbers([]) == [];
  }

  lemma LastRow(rd: Reader, c: Carry, init: seq<Row>, last: Row, n: nat)
    requires n in Numbers(rd.Converted(c, init)) <==> ShownWith(rd, c, init, n)
    ensures n in Numbers(rd.Converted(c, init + [last])) <==> ShownWith(rd, c, init + [last], n)
  {
    var mid := rd.CarryAfter(c, init);
    assert (init + [last])[..|init|] == init;
    NumbersConcat(rd.Converted(c, init), rd.Emitted(mid, last));
    ShownNumber(rd, mid.prev, last);
    CarriedPrompt(rd, c, init);
    ShownSnoc(rd, c, init, last, n);
  }

  lemma SeenIsShown(rd: Reader, rows: seq<Row>, p: nat, q: nat, c: Carry, j: nat)
    requires p <= j < q <= |rows| && Lenient(rd, rows, p, c) && rd.Seen(rows, j)
    ensures ShownWith(rd, c, rows[p..q], rows[j].seqNo)
  {
    var slice := rows[p..q];
    assert slice[j - p] == rows[j] && (j > p ==> slice[j - p - 1] == rows[j - 1]);
    assert ShownAt(rd, c, slice, j - p);
  }

  lemma ShownIsNumbered(rd: Reader, rows: seq<Row>, p: nat, q: nat, c: Carry, n: nat)
    requires p <= q <= |rows| && ShownWith(rd, c, rows[p..q], n)
    ensures Numbered(rows, p, q, n)
  {
    var slice := rows[p..q];
    var j :| 0 <= j < |slice| && slice[j].seqNo == n && ShownAt(rd, c, slice, j);
    assert rows[p + j].seqNo == n;
  }

  // The conversion of a slice carries the numbers of the rows that are shown.
  lemma SliceNumbers(rd: Reader, rows: seq<Row>, p: nat, q: nat, c: Carry)
    requires p <= q <= |rows| && Lenient(rd, rows, p, c)
    ensures NumbersOf(rd, rows, p, q, Numbers(rd.Converted(c, rows[p..q])))
  {
    var ns := Numbers(rd.Converted(c, rows[p..q]));
    forall j | p <= j < q && rd.Seen(rows, j) ensures rows[j].seqNo in ns {
      SeenIsShown(rd, rows, p, q, c, j);
      NumberedIffShown(rd, c, rows[p..q], rows[j].seqNo);
    }
    forall n | n in ns ensures Numbered(rows, p, q, n) {
      NumberedIffShown(rd, c, rows[p..q], n);
      ShownIsNumbered(rd, rows, p, q, c, n);
    }
  }

  // ---- One write ----------------------------------------------------------------------

  lemma NotPassedMembers(ns: seq<nat>, mark: nat)
    requires forall n :: n in ns ==> 1 <= n
    ensures forall n :: n in NotPassed(ns, mark) <==> n in ns && n > mark
  {
    FreshMembers(ns, mark);
  }

  // Every row before p that the transcript shows is at or below the watermark.
  ghost predicate PassedBefore(rd: Reader, rows: seq<Row>, p: nat, mark: nat)
    requires p <= |rows|
  {
    forall j :: 0 <= j < p && rd.Seen(rows, j) ==> rows[j].seqNo <= mark
  }

  lemma AllPositive(rd: Reader, rows: seq<Row>, p: nat, q: nat, ns: seq<nat>)
    requires p <= q <= |rows| && Stored(rows) && NumbersOf(rd, rows, p, q, ns)
    ensures forall n :: n in ns ==> 1 <= n
  {
    forall n | n in ns ensures 1 <= n {
      var j :| p <= j < q && rows[j].seqNo == n;
    }
  }

  // Where a row sits whose number is at most one of the slice's numbers.
  lemma InFront(rows: seq<Row>, p: nat, q: nat, n: nat, j: nat)
    requires p <= q <= |rows| && Stored(rows) && Numbered(rows, p, q, n) && j < |rows| && rows[j].seqNo <= n
    ensures j < q
  {
    var i :| p <= i < q && rows[i].seqNo == n;
  }

  lemma RowCovered(rd: Reader, rows: seq<Row>, l: Ledger, p: nat, q: nat, ns: seq<nat>, e: Event, j: nat)
    requires p <= q <= |rows| && Stored(rows) && Covered(rd, rows, l) && NumbersOf(rd, rows, p, q, ns)
    requires forall n :: n in ns && n > Mark(l.watermark) ==> InRange(e, n)
    requires e.max in ns && PassedBefore(rd, rows, p, Mark(l.watermark))
    requires j < |rows| && rd.Seen(rows, j) && (rows[j].seqNo <= Mark(l.watermark) || rows[j].seqNo <= e.max)
    ensures InEvents(l.events + [e], rows[j].seqNo)
  {
    if rows[j].seqNo <= Mark(l.watermark) {
      var e0 :| e0 in l.events && InRange(e0, rows[j].seqNo);
      assert e0 in l.events + [e];
    } else {
      InFront(rows, p, q, e.max, j);
      assert e in l.events + [e];
    }
  }

  // Recording the range of a slice keeps every row covered when the rows before the
  // slice have been passed.
  lemma RecordCovers(rd: Reader, rows: seq<Row>, l: Ledger, p: nat, q: nat, ns: seq<nat>, e: Event)
    requires p <= q <= |rows| && Stored(rows) && Covered(rd, rows, l) && NumbersOf(rd, rows, p, q, ns)
    requires forall n :: n in ns && n > Mark(l.watermark) ==> InRange(e, n)
    requires e.max in ns && PassedBefore(rd, rows, p, Mark(l.watermark))
    ensures Covered(rd, rows, AdvancedOnly(l, e.max).(events := l.events + [e]))
  {
    var after := AdvancedOnly(l, e.max).(events := l.events + [e]);
    forall j | 0 <= j < |rows| && rows[j].seqNo <= Mark(after.watermark) && rd.Seen(rows, j)
      ensures InEvents(after.events, rows[j].seqNo)
    {
      RowCovered(rd, rows, l, p, q, ns, e, j);
    }
  }

  lemma TriggerCovers(rd: Reader, rows: seq<Row>, l: Ledger, p: nat, q: nat, dropped: seq<Message>)
    requires p <= q <= |rows| && Stored(rows) && Covered(rd, rows, l) && NumbersOf(rd, rows, p, q, Numbers(dropped))
    requires PassedBefore(rd, rows, p, Mark(l.watermark))
    ensures Covered(rd, rows, Triggered(l, dropped))
  {
    var all, mark := Numbers(dropped), Mark(l.watermark);
    var ns := NotPassed(all, mark);
    AllPositive(rd, rows, p, q, all);
    NotPassedMembers(all, mark);
    if ns != [] {
      RecordCovers(rd, rows, l, p, q, all, Event(MinOf(ns), MaxOf(ns), true,
        |if mark != 0 then Kept(dropped, mark) else dropped|));
    }
  }

  // A trim or an overflow records a range above everything the ledger holds.
  lemma TriggerRanges(l: Ledger, dropped: seq<Message>)
    requires RangesBelow(l) && RangesIncrease(l.events) && forall n :: n in Numbers(dropped) ==> 1 <= n
    ensures RangesBelow(Triggered(l, dropped)) && RangesIncrease(Triggered(l, dropped).events)
    ensures Mark(l.watermark) <= Mark(Triggered(l, dropped).watermark)
  {
    NotPassedMembers(Numbers(dropped), Mark(l.watermark));
  }

  lemma AdminCovers(rd: Reader, rows: seq<Row>, l: Ledger, p: nat, q: nat, compacted: seq<Message>)
    requires p <= q <= |rows| && Stored(rows) && Covered(rd, rows, l) && NumbersOf(rd, rows, p, q, Numbers(compacted))
    requires PassedBefore(rd, rows, p, Mark(l.watermark))
    ensures Covered(rd, rows, AdminCompacted(l, compacted))
  {
    var ns := Numbers(compacted);
    if ns != [] {
      RecordCovers(rd, rows, l, p, q, ns, Event(MinOf(ns), MaxOf(ns), false, |compacted|));
    }
  }

  lemma AdminRanges(l: Ledger, compacted: seq<Message>)
    requires RangesBelow(l) && RangesIncrease(l.events)
    ensures RangesBelow(AdminCompacted(l, compacted)) && RangesIncrease(AdminCompacted(l, compacted).events)
    ensures Mark(l.watermark) <= Mark(AdminCompacted(l, compacted).watermark)
  {
  }

  // Nothing in the slice is shown, so the watermark may pass all of it.
  lemma AdvanceCovers(rd: Reader, rows: seq<Row>, l: Ledger, p: nat, q: nat)
    requires p < q <= |rows| && Stored(rows) && Covered(rd, rows, l) && NumbersOf(rd, rows, p, q, [])
    requires PassedBefore(rd, rows, p, Mark(l.watermark))
    ensures Covered(rd, rows, AdvancedOnly(l, rows[q - 1].seqNo))
  {
    forall j | 0 <= j < |rows| && rows[j].seqNo <= rows[q - 1].seqNo && rd.Seen(rows, j)
      ensures rows[j].seqNo <= Mark(l.watermark)
    {
      InFront(rows, q - 1, q, rows[q - 1].seqNo, j);
    }
  }

  // ---- Writers ---------------------------------------------------------------------------

  // What a turn or an admin read before it writes: the transcript up to a length and
  // the watermark then.
  datatype Snapshot = Snapshot(length: nat, watermark: Option<nat>, limit: nat)

  datatype Store = Store(rows: seq<Row>, ledger: Ledger, overflowed: set<Snapshot>)

  datatype Action =
    | Append(row: Row)
    | Overflow(s: Snapshot, commits: bool)
    | Trim(s: Snapshot, count: nat, live: seq<Message>, commits: bool)
    | Admin(s: Snapshot, keepRecent: nat, commits: bool)

  function Total(rows: seq<Row>, s: Snapshot): nat
    requires s.length <= |rows|
  {
    |Visibles(rows[..s.length], s.watermark)|
  }

  // Where the visible rows of a snapshot start, and where its window does.
  function From(rows: seq<Row>, s: Snapshot): nat
    requires s.length <= |rows|
  {
    |Below(rows[..s.length], s.watermark)|
  }

  function WindowAt(rows: seq<Row>, s: Snapshot): nat
    requires s.length <= |rows|
  {
    From(rows, s) + (if Total(rows, s) > s.limit then Total(rows, s) - s.limit else 0)
  }

  function Min(a: int, b: int): int {
    if a < b then a else b
  }

  function CompactCount(total: nat, limit: nat): int {
    Min(Min(total - 1, total - limit + BATCH_ROWS), MAX_ROWS_PER_TURN)
  }

  // The current row is never compacted, and every row outside the window is when
  // at most 200 are.
  lemma CountBounds(total: nat, limit: nat)
    requires 1 <= limit < total
    ensures 1 <= CompactCount(total, limit) <= total - 1 && CompactCount(total, limit) <= MAX_ROWS_PER_TURN
    ensures total - limit <= MAX_ROWS_PER_TURN <==> total - limit <= CompactCount(total, limit)
    ensures total - limit > MAX_ROWS_PER_TURN ==> CompactCount(total, limit) == MAX_ROWS_PER_TURN
  {
  }

  // The oldest visible rows, when there are more than the window takes.
  function ToOverflow(rows: seq<Row>, s: Snapshot): seq<Row>
    requires s.length <= |rows| && 1 <= s.limit
  {
    var all := Visibles(rows[..s.length], s.watermark);
    if |all| <= s.limit then [] else all[..CompactCount(|all|, s.limit)]
  }

  function Overflowed(rd: Reader, rows: seq<Row>, s: Snapshot, l: Ledger): Ledger
    requires s.length <= |rows| && 1 <= s.limit
  {
    var overflow := ToOverflow(rows, s);
    if overflow == [] then l else Compacted(rd, overflow, l)
  }

  function Compacted(rd: Reader, rows: seq<Row>, l: Ledger): Ledger
    requires rows != []
  {
    Written(l, rd.Converted(Start, rows), rows[|rows| - 1].seqNo)
  }

  // Nothing rendered: there is no fact to extract, and the watermark passes the rows.
  function Written(l: Ledger, messages: seq<Message>, last: nat): Ledger {
    if messages != [] then Triggered(l, messages) else AdvancedOnly(l, last)
  }

  function WindowOf(base: seq<Row>, s: Snapshot): (seq<Row>, seq<Row>) {
    Window(Below(base, s.watermark), Visibles(base, s.watermark), s.limit)
  }

  function Front(rows: seq<Row>, count: nat): seq<Row> {
    if count <= |rows| then rows[..count] else rows
  }

  function OldestShown(rd: Reader, rows: seq<Row>, s: Snapshot, count: nat): seq<Message>
    requires s.length <= |rows|
  {
    var w := WindowOf(rows[..s.length], s);
    rd.Converted(rd.CarryAfter(Start, w.1), Front(w.0, count))
  }

  // A trim drops the rendering of the oldest rows of the window, and possibly
  // messages of the turn itself.
  function Trimmed(rd: Reader, rows: seq<Row>, s: Snapshot, count: nat, live: seq<Message>, l: Ledger): Ledger
    requires s.length <= |rows|
  {
    Triggered(l, OldestShown(rd, rows, s, count) + live)
  }

  function ToCompact(rows: seq<Row>, s: Snapshot, keepRecent: nat): seq<Row>
    requires s.length <= |rows|
  {
    var above := Above(rows[..s.length], Mark(s.watermark));
    if keepRecent == 0 then above else if keepRecent <= |above| then above[..|above| - keepRecent] else []
  }

  function AfterAdmin(rd: Reader, rows: seq<Row>, s: Snapshot, keepRecent: nat, l: Ledger): Ledger
    requires s.length <= |rows|
  {
    var compact := ToCompact(rows, s, keepRecent);
    if compact == [] then l
    else
      CompactedByAdmin(rd, compact, l)
  }

  function CompactedByAdmin(rd: Reader, rows: seq<Row>, l: Ledger): Ledger
    requires rows != []
  {
    WrittenByAdmin(l, rd.Converted(Start, rows), rows[|rows| - 1].seqNo)
  }

  function WrittenByAdmin(l: Ledger, messages: seq<Message>, last: nat): Ledger {
    if messages == [] then AdvancedOnly(l, last) else AdminCompacted(l, messages)
  }

  ghost predicate Fits(st: Store, s: Snapshot) {
    s.length <= |st.rows| && Mark(s.watermark) <= Mark(st.ledger.watermark) && 1 <= s.limit
  }

  // Of the messages of the turn itself only those folded in carry a number, that of
  // the row which was stored for them after the turn's own message.
  ghost predicate LiveRows(rows: seq<Row>, s: Snapshot, live: seq<Message>) {
    forall n :: n in Numbers(live) ==> Numbered(rows, s.length, |rows|, n)
  }

  ghost predicate Enabled(st: Store, a: Action) {
    match a
    case Append(row) => Stored(st.rows + [row])
    case Overflow(s, _) => Fits(st, s)
    case Trim(s, _, live, _) => Fits(st, s) && LiveRows(st.rows, s, live)
    case Admin(s, _, _) => Fits(st, s)
  }

  // A write that does not commit leaves everything as it was.
  function Next(rd: Reader, st: Store, a: Action): Store
    requires Enabled(st, a)
  {
    match a
    case Append(row) => st.(rows := st.rows + [row])
    case Overflow(s, commits) =>
      if commits then st.(ledger := Overflowed(rd, st.rows, s, st.ledger), overflowed := st.overflowed + {s}) else st
    case Trim(s, count, live, commits) =>
      if commits then st.(ledger := Trimmed(rd, st.rows, s, count, live, st.ledger)) else st
    case Admin(s, keepRecent, commits) =>
      if commits then st.(ledger := AfterAdmin(rd, st.rows, s, keepRecent, st.ledger)) else st
  }

  // ---- Slices of the transcript ---------------------------------------------------------

  lemma BelowAndVisible(base: seq<Row>, watermark: Option<nat>)
    requires Stored(base)
    ensures Below(base, watermark) == UpTo(base, Mark(watermark)) && Visibles(base, watermark) == Above(base, Mark(watermark))
    ensures base == Below(base, watermark) + Visibles(base, watermark)
  {
    WatermarkSplits(base, Mark(watermark));
    if Mark(watermark) == 0 {
      NothingUpTo(base);
    }
  }

  lemma StoredPrefix(rows: seq<Row>, n: nat)
    requires Stored(rows) && n <= |rows|
    ensures Stored(rows[..n])
  {
  }

  lemma SplitAt(rows: seq<Row>, s: Snapshot)
    requires Stored(rows) && s.length <= |rows|
    ensures From(rows, s) + Total(rows, s) == s.length
    ensures Visibles(rows[..s.length], s.watermark) == rows[From(rows, s)..s.length]
    ensures Visibles(rows[..s.length], s.watermark) == Above(rows[..s.length], Mark(s.watermark))
    ensures Below(rows[..s.length], s.watermark) == rows[..From(rows, s)]
  {
    StoredPrefix(rows, s.length);
    BelowAndVisible(rows[..s.length], s.watermark);
    Halves(rows, s.length, Below(rows[..s.length], s.watermark), Visibles(rows[..s.length], s.watermark));
  }

  lemma Halves<T>(s: seq<T>, n: nat, a: seq<T>, b: seq<T>)
    requires n <= |s| && s[..n] == a + b
    ensures |a| + |b| == n && a == s[..|a|] && b == s[|a|..n]
  {
    assert a == (a + b)[..|a|] && b == (a + b)[|a|..];
  }

  lemma SplitMarks(rows: seq<Row>, s: Snapshot, j: nat)
    requires Stored(rows) && s.length <= |rows| && j < s.length
    ensures j < From(rows, s) <==> rows[j].seqNo <= Mark(s.watermark)
  {
    SplitAt(rows, s);
    StoredPrefix(rows, s.length);
    var base := rows[..s.length];
    BelowAndVisible(base, s.watermark);
    WatermarkSplits(base, Mark(s.watermark));
    if j < From(rows, s) {
      assert rows[j] == Below(base, s.watermark)[j];
    } else {
      assert rows[j] == Visibles(base, s.watermark)[j - From(rows, s)];
    }
  }

  lemma {:induction false} NothingUpTo(rows: seq<Row>)
    requires forall i :: 0 <= i < |rows| ==> 1 <= rows[i].seqNo
    ensures UpTo(rows, 0) == [] && Above(rows, 0) == rows
  {
    if rows != [] {
      NothingUpTo(rows[..|rows| - 1]);
    }
  }

  // ---- Each writer keeps every row covered ------------------------------------------------

  lemma NumbersStored(rows: seq<Row>, p: nat, q: nat, n: nat)
    requires q <= |rows| && Stored(rows) && Numbered(rows, p, q, n)
    ensures n <= LastSeq(rows)
  {
    var j :| p <= j < q && rows[j].seqNo == n;
    assert j < |rows| - 1 ==> rows[j].seqNo < rows[|rows| - 1].seqNo;
  }

  lemma MarkStored(rd: Reader, rows: seq<Row>, p: nat, q: nat, ns: seq<nat>, l: Ledger, max: nat)
    requires p <= q <= |rows| && Stored(rows) && NumbersOf(rd, rows, p, q, ns) && max in ns
    requires Mark(l.watermark) <= LastSeq(rows)
    ensures Mark(AdvancedOnly(l, max).watermark) <= LastSeq(rows)
  {
    NumbersStored(rows, p, q, max);
  }

  lemma NumbersPassed(rd: Reader, rows: seq<Row>, p: nat, q: nat, ns: seq<nat>, mark: nat)
    requires p <= q <= |rows| && NumbersOf(rd, rows, p, q, ns) && forall n :: n in ns ==> n <= mark
    requires PassedBefore(rd, rows, p, mark)
    ensures PassedBefore(rd, rows, q, mark)
  {
  }

  lemma TriggerSound(rd: Reader, rows: seq<Row>, l: Ledger, p: nat, q: nat, dropped: seq<Message>)
    requires p <= q <= |rows| && Sound(rd, rows, l) && NumbersOf(rd, rows, p, q, Numbers(dropped))
    requires PassedBefore(rd, rows, p, Mark(l.watermark))
    ensures Sound(rd, rows, Triggered(l, dropped)) && Mark(l.watermark) <= Mark(Triggered(l, dropped).watermark)
    ensures PassedBefore(rd, rows, q, Mark(Triggered(l, dropped).watermark))
  {
    var all, mark := Numbers(dropped), Mark(l.watermark);
    var ns := NotPassed(all, mark);
    TriggerCovers(rd, rows, l, p, q, dropped);
    AllPositive(rd, rows, p, q, all);
    TriggerRanges(l, dropped);
    NotPassedMembers(all, mark);
    if ns != [] {
      MarkStored(rd, rows, p, q, all, l, MaxOf(ns));
    }
    NumbersPassed(rd, rows, p, q, all, Mark(Triggered(l, dropped).watermark));
  }

  lemma AdvanceSound(rd: Reader, rows: seq<Row>, l: Ledger, p: nat, q: nat)
    requires p < q <= |rows| && Sound(rd, rows, l) && NumbersOf(rd, rows, p, q, [])
    requires PassedBefore(rd, rows, p, Mark(l.watermark))
    ensures Sound(rd, rows, AdvancedOnly(l, rows[q - 1].seqNo))
    ensures PassedBefore(rd, rows, q, Mark(AdvancedOnly(l, rows[q - 1].seqNo).watermark))
  {
    AdvanceCovers(rd, rows, l, p, q);
    assert Numbered(rows, p, q, rows[q - 1].seqNo);
    NumbersStored(rows, p, q, rows[q - 1].seqNo);
  }

  lemma AdminSound(rd: Reader, rows: seq<Row>, l: Ledger, p: nat, q: nat, compacted: seq<Message>)
    requires p <= q <= |rows| && Sound(rd, rows, l) && NumbersOf(rd, rows, p, q, Numbers(compacted))
    requires PassedBefore(rd, rows, p, Mark(l.watermark))
    ensures Sound(rd, rows, AdminCompacted(l, compacted))
    ensures Mark(l.watermark) <= Mark(AdminCompacted(l, compacted).watermark)
  {
    AdminCovers(rd, rows, l, p, q, compacted);
    AdminRanges(l, compacted);
    if Numbers(compacted) != [] {
      MarkStored(rd, rows, p, q, Numbers(compacted), l, MaxOf(Numbers(compacted)));
    }
  }

  lemma PassedFrom(rd: Reader, rows: seq<Row>, s: Snapshot, mark: nat)
    requires Stored(rows) && s.length <= |rows| && Mark(s.watermark) <= mark
    ensures From(rows, s) <= s.length && PassedBefore(rd, rows, From(rows, s), mark)
  {
    SplitAt(rows, s);
    forall j | 0 <= j < From(rows, s) ensures rows[j].seqNo <= mark {
      SplitMarks(rows, s, j);
    }
  }

  lemma WriteSound(rd: Reader, rows: seq<Row>, p: nat, q: nat, l: Ledger, messages: seq<Message>)
    requires p < q <= |rows| && Sound(rd, rows, l) && PassedBefore(rd, rows, p, Mark(l.watermark))
    requires NumbersOf(rd, rows, p, q, Numbers(messages))
    ensures var after := Written(l, messages, rows[q - 1].seqNo);
            && Sound(rd, rows, after) && Mark(l.watermark) <= Mark(after.watermark)
            && PassedBefore(rd, rows, q, Mark(after.watermark))
  {
    if messages != [] {
      TriggerSound(rd, rows, l, p, q, messages);
    } else {
      AdvanceSound(rd, rows, l, p, q);
    }
  }

  lemma AdminWriteSound(rd: Reader, rows: seq<Row>, p: nat, q: nat, l: Ledger, messages: seq<Message>)
    requires p < q <= |rows| && Sound(rd, rows, l) && PassedBefore(rd, rows, p, Mark(l.watermark))
    requires NumbersOf(rd, rows, p, q, Numbers(messages))
    ensures var after := WrittenByAdmin(l, messages, rows[q - 1].seqNo);
            Sound(rd, rows, after) && Mark(l.watermark) <= Mark(after.watermark)
  {
    if messages == [] {
      AdvanceSound(rd, rows, l, p, q);
    } else {
      AdminSound(rd, rows, l, p, q, messages);
    }
  }

  lemma CompactedIs(rd: Reader, rows: seq<Row>, p: nat, q: nat, l: Ledger)
    requires p < q <= |rows|
    ensures Compacted(rd, rows[p..q], l) == Written(l, rd.Converted(Start, rows[p..q]), rows[q - 1].seqNo)
    ensures CompactedByAdmin(rd, rows[p..q], l) == WrittenByAdmin(l, rd.Converted(Start, rows[p..q]), rows[q - 1].seqNo)
  {
    assert rows[p..q][q - p - 1] == rows[q - 1];
  }

  // Rows p to q are converted without the rows before them, which hides no row that
  // the transcript shows.
  lemma SliceSound(rd: Reader, rows: seq<Row>, p: nat, q: nat, l: Ledger)
    requires p < q <= |rows| && Sound(rd, rows, l) && PassedBefore(rd, rows, p, Mark(l.watermark))
    ensures Sound(rd, rows, Compacted(rd, rows[p..q], l)) && Mark(l.watermark) <= Mark(Compacted(rd, rows[p..q], l).watermark)
    ensures PassedBefore(rd, rows, q, Mark(Compacted(rd, rows[p..q], l).watermark))
  {
    CompactedIs(rd, rows, p, q, l);
    SliceNumbers(rd, rows, p, q, Start);
    WriteSound(rd, rows, p, q, l, rd.Converted(Start, rows[p..q]));
  }

  lemma AdminSliceSound(rd: Reader, rows: seq<Row>, p: nat, q: nat, l: Ledger)
    requires p < q <= |rows| && Sound(rd, rows, l) && PassedBefore(rd, rows, p, Mark(l.watermark))
    ensures Sound(rd, rows, CompactedByAdmin(rd, rows[p..q], l))
    ensures Mark(l.watermark) <= Mark(CompactedByAdmin(rd, rows[p..q], l).watermark)
  {
    CompactedIs(rd, rows, p, q, l);
    SliceNumbers(rd, rows, p, q, Start);
    AdminWriteSound(rd, rows, p, q, l, rd.Converted(Start, rows[p..q]));
  }

  // What an overflow compacts: rows p to q, and no other.
  lemma OverflowSlice(rows: seq<Row>, s: Snapshot) returns (p: nat, q: nat)
    requires Stored(rows) && s.length <= |rows| && 1 <= s.limit < Total(rows, s)
    ensures p == From(rows, s) && q == p + CompactCount(Total(rows, s), s.limit) && p < q < s.length
    ensures ToOverflow(rows, s) == rows[p..q]
  {
    CountBounds(Total(rows, s), s.limit);
    SplitAt(rows, s);
    p, q := From(rows, s), From(rows, s) + CompactCount(Total(rows, s), s.limit);
    PrefixSlice(rows, p, s.length, q - p);
  }

  lemma OverflowSound(rd: Reader, rows: seq<Row>, s: Snapshot, l: Ledger)
    requires Sound(rd, rows, l) && s.length <= |rows| && Mark(s.watermark) <= Mark(l.watermark) && 1 <= s.limit < Total(rows, s)
    ensures Sound(rd, rows, Overflowed(rd, rows, s, l)) && Mark(l.watermark) <= Mark(Overflowed(rd, rows, s, l).watermark)
    ensures var q := From(rows, s) + CompactCount(Total(rows, s), s.limit);
            0 <= q <= |rows| && PassedBefore(rd, rows, q, Mark(Overflowed(rd, rows, s, l).watermark))
  {
    var p, q := OverflowSlice(rows, s);
    PassedFrom(rd, rows, s, Mark(l.watermark));
    SliceSound(rd, rows, p, q, l);
  }

  lemma AdminSlice(rows: seq<Row>, s: Snapshot, keepRecent: nat) returns (p: nat, q: nat)
    requires Stored(rows) && s.length <= |rows|
    ensures p == From(rows, s) && p <= q <= s.length && ToCompact(rows, s, keepRecent) == rows[p..q]
  {
    SplitAt(rows, s);
    p := From(rows, s);
    q := p + |ToCompact(rows, s, keepRecent)|;
    PrefixSlice(rows, p, s.length, q - p);
  }

  lemma AfterAdminSound(rd: Reader, rows: seq<Row>, s: Snapshot, keepRecent: nat, l: Ledger)
    requires Sound(rd, rows, l) && s.length <= |rows| && Mark(s.watermark) <= Mark(l.watermark)
    ensures Sound(rd, rows, AfterAdmin(rd, rows, s, keepRecent, l))
    ensures Mark(l.watermark) <= Mark(AfterAdmin(rd, rows, s, keepRecent, l).watermark)
  {
    var p, q := AdminSlice(rows, s, keepRecent);
    PassedFrom(rd, rows, s, Mark(l.watermark));
    if p < q {
      AdminSliceSound(rd, rows, p, q, l);
    }
  }

  lemma AppendSound(rd: Reader, rows: seq<Row>, r: Row, l: Ledger)
    requires Sound(rd, rows, l) && Stored(rows + [r])
    ensures Sound(rd, rows + [r], l)
  {
    var more := rows + [r];
    assert more[|rows|] == r;
    assert rows != [] ==> more[|rows| - 1].seqNo < r.seqNo;
    rd.SeenPrefix(rows, [r], |rows|);
    forall j | 0 <= j < |more| && more[j].seqNo <= Mark(l.watermark) && rd.Seen(more, j)
      ensures InEvents(l.events, more[j].seqNo)
    {
      assert more[j] == rows[j];
    }
  }

  // The carry into the window hides a row only where the transcript does.
  lemma WindowLenient(rd: Reader, rows: seq<Row>, w: nat, preceding: seq<Row>)
    requires w <= |rows| && preceding == LastOf(rows[..w], PRECEDING_LOOKBACK_ROWS)
    ensures Lenient(rd, rows, w, rd.CarryAfter(Start, preceding))
  {
    rd.CarryIsPositional(preceding);
    if preceding != [] {
      assert preceding[|preceding| - 1] == rows[w - 1];
    }
  }

  lemma SubSlice(rows: seq<Row>, p: nat, n: nat, i: nat, j: nat)
    requires p + j <= n <= |rows| && i <= j
    ensures rows[p..n][i..j] == rows[p + i..p + j]
  {
    var a, b := rows[p..n][i..j], rows[p + i..p + j];
    forall k | 0 <= k < j - i ensures a[k] == b[k] {
      assert a[k] == rows[p..n][i + k];
    }
  }

  lemma PrefixSlice(rows: seq<Row>, p: nat, n: nat, j: nat)
    requires p + j <= n <= |rows|
    ensures rows[p..n][..j] == rows[p..p + j]
  {
  }

  lemma Rejoined(rows: seq<Row>, f: nat, n: nat, w: nat)
    requires f <= w <= n <= |rows|
    ensures (rows[..f] + rows[f..n])[..w] == rows[..w]
  {
  }

  // The window of a transcript of n rows, f of them below the watermark.
  lemma WindowSlice(rows: seq<Row>, f: nat, n: nat, limit: nat, w: nat)
    requires f < n <= |rows| && 1 <= limit && w == f + (if n - f > limit then n - f - limit else 0)
    ensures w < n && Window(rows[..f], rows[f..n], limit).0 == rows[w..n - 1]
  {
    SubSlice(rows, f, n, w - f, n - 1 - f);
  }

  lemma WindowBefore(rows: seq<Row>, f: nat, n: nat, limit: nat, w: nat)
    requires f < n <= |rows| && 1 <= limit && w == f + (if n - f > limit then n - f - limit else 0) && w < n - 1
    ensures Window(rows[..f], rows[f..n], limit).1 == LastOf(rows[..w], PRECEDING_LOOKBACK_ROWS)
  {
    WindowSlice(rows, f, n, limit, w);
    WindowPreceding(rows[..f], rows[f..n], limit);
    Rejoined(rows, f, n, w);
  }

  lemma WindowRows(rows: seq<Row>, s: Snapshot, w: nat)
    requires Stored(rows) && s.length <= |rows| && 1 <= s.limit && 0 < Total(rows, s) && w == WindowAt(rows, s)
    ensures w < s.length && WindowOf(rows[..s.length], s).0 == rows[w..s.length - 1]
    ensures w < s.length - 1 ==> WindowOf(rows[..s.length], s).1 == LastOf(rows[..w], PRECEDING_LOOKBACK_ROWS)
  {
    SplitAt(rows, s);
    WindowOfSlices(rows, s);
    WindowSlice(rows, From(rows, s), s.length, s.limit, w);
    if w < s.length - 1 {
      WindowBefore(rows, From(rows, s), s.length, s.limit, w);
    }
  }

  lemma WindowOfSlices(rows: seq<Row>, s: Snapshot)
    requires Stored(rows) && s.length <= |rows|
    ensures From(rows, s) <= s.length
    ensures WindowOf(rows[..s.length], s) == Window(rows[..From(rows, s)], rows[From(rows, s)..s.length], s.limit)
  {
    SplitAt(rows, s);
  }

  lemma FrontRows(rows: seq<Row>, w: nat, n: nat, count: nat) returns (q: nat)
    requires w <= n <= |rows|
    ensures w <= q <= n && Front(rows[w..n], count) == rows[w..q] && (q == w + count || q == n)
  {
    q := if count <= n - w then w + count else n;
    PrefixSlice(rows, w, n, q - w);
  }

  // What a trim drops of the history: rows w to q.
  lemma TrimSlice(rows: seq<Row>, s: Snapshot, count: nat, w: nat) returns (q: nat)
    requires Stored(rows) && s.length <= |rows| && 1 <= s.limit && w == WindowAt(rows, s)
    ensures w <= q <= s.length && Front(WindowOf(rows[..s.length], s).0, count) == rows[w..q]
    ensures if Total(rows, s) == 0 then q == w else q < s.length && (q == w + count || q == s.length - 1)
  {
    SplitAt(rows, s);
    if Total(rows, s) == 0 {
      q := w;
    } else {
      WindowRows(rows, s, w);
      q := FrontRows(rows, w, s.length - 1, count);
    }
  }

  lemma TrimLenient(rd: Reader, rows: seq<Row>, s: Snapshot, w: nat)
    requires Stored(rows) && s.length <= |rows| && 1 <= s.limit && w == WindowAt(rows, s)
    requires 0 < Total(rows, s) && w < s.length - 1
    ensures Lenient(rd, rows, w, rd.CarryAfter(Start, WindowOf(rows[..s.length], s).1))
  {
    WindowRows(rows, s, w);
    WindowLenient(rd, rows, w, WindowOf(rows[..s.length], s).1);
  }

  lemma NothingNumbered(rd: Reader, rows: seq<Row>, w: nat, c: Carry)
    requires w <= |rows|
    ensures NumbersOf(rd, rows, w, w, Numbers(rd.Converted(c, rows[w..w])))
  {
    assert rows[w..w] == [] && rd.Converted(c, []) == [] && Numbers([]) == [];
  }

  // The history a trim drops is that of rows w to q, and what it drops of the turn
  // itself belongs to rows behind them.
  lemma TrimNumbers(rd: Reader, rows: seq<Row>, s: Snapshot, count: nat) returns (q: nat)
    requires Stored(rows) && s.length <= |rows| && 1 <= s.limit
    ensures WindowAt(rows, s) <= q <= s.length
    ensures NumbersOf(rd, rows, WindowAt(rows, s), q, Numbers(OldestShown(rd, rows, s, count)))
  {
    var c := rd.CarryAfter(Start, WindowOf(rows[..s.length], s).1);
    q := TrimSlice(rows, s, count, WindowAt(rows, s));
    if q == WindowAt(rows, s) {
      NothingNumbered(rd, rows, q, c);
    } else {
      TrimLenient(rd, rows, s, WindowAt(rows, s));
      SliceNumbers(rd, rows, WindowAt(rows, s), q, c);
    }
  }

  // Whether a trim leaves a row behind: whether it advances the watermark over a row
  // outside its window that was not compacted.
  predicate Advances(rd: Reader, rows: seq<Row>, s: Snapshot, count: nat, live: seq<Message>, l: Ledger)
    requires s.length <= |rows|
  {
    Mark(l.watermark) < Mark(Trimmed(rd, rows, s, count, live, l).watermark)
  }

  // Every shown row numbered below n has been passed.
  ghost predicate NoneBelow(rd: Reader, rows: seq<Row>, n: nat, mark: nat) {
    forall j :: 0 <= j < |rows| && rd.Seen(rows, j) && rows[j].seqNo < n ==> rows[j].seqNo <= mark
  }

  ghost predicate AllStored(rows: seq<Row>, ns: seq<nat>) {
    forall n :: n in ns ==> Numbered(rows, 0, |rows|, n)
  }

  lemma StoredPositive(rows: seq<Row>, ns: seq<nat>)
    requires Stored(rows) && AllStored(rows, ns)
    ensures forall n :: n in ns ==> 1 <= n <= LastSeq(rows)
  {
    forall n | n in ns ensures 1 <= n <= LastSeq(rows) {
      NumbersStored(rows, 0, |rows|, n);
      var j :| 0 <= j < |rows| && rows[j].seqNo == n;
    }
  }

  // Recording the range from min to max moves the watermark to max and keeps every
  // row covered exactly when nothing shown below min was left.
  lemma RangeExact(rd: Reader, rows: seq<Row>, l: Ledger, e: Event)
    requires Covered(rd, rows, l) && RangesBelow(l) && Mark(l.watermark) < e.min <= e.max
    ensures Covered(rd, rows, Ledger(Some(e.max), l.events + [e])) <==> NoneBelow(rd, rows, e.min, Mark(l.watermark))
  {
    var after := Ledger(Some(e.max), l.events + [e]);
    if NoneBelow(rd, rows, e.min, Mark(l.watermark)) {
      forall j | 0 <= j < |rows| && rows[j].seqNo <= e.max && rd.Seen(rows, j)
        ensures InEvents(after.events, rows[j].seqNo)
      {
        if rows[j].seqNo <= Mark(l.watermark) {
          var e0 :| e0 in l.events && InRange(e0, rows[j].seqNo);
          assert e0 in after.events;
        } else {
          assert e in after.events && InRange(e, rows[j].seqNo);
        }
      }
    } else {
      var j :| 0 <= j < |rows| && rd.Seen(rows, j) && rows[j].seqNo < e.min && Mark(l.watermark) < rows[j].seqNo;
      OutsideAll(l, e, rows[j].seqNo);
    }
  }

  lemma OutsideAll(l: Ledger, e: Event, n: nat)
    requires RangesBelow(l) && Mark(l.watermark) < n < e.min
    ensures !InEvents(l.events + [e], n)
  {
  }

  lemma TriggeredIs(l: Ledger, dropped: seq<Message>) returns (trimmed: nat)
    requires forall n :: n in Numbers(dropped) ==> 1 <= n
    ensures var ns := NotPassed(Numbers(dropped), Mark(l.watermark));
            if ns == [] then Triggered(l, dropped) == l
            else
              && Mark(l.watermark) < MinOf(ns) <= MaxOf(ns)
              && Triggered(l, dropped) == Ledger(Some(MaxOf(ns)), l.events + [Event(MinOf(ns), MaxOf(ns), true, trimmed)])
  {
    var mark := Mark(l.watermark);
    NotPassedMembers(Numbers(dropped), mark);
    trimmed := |if mark != 0 then Kept(dropped, mark) else dropped|;
  }

  // For any messages of stored rows, whatever they were dropped by: every row stays
  // covered if and only if no shown row that was not passed precedes the first of
  // them that was not.
  lemma TriggerExact(rd: Reader, rows: seq<Row>, l: Ledger, dropped: seq<Message>)
    requires Sound(rd, rows, l) && AllStored(rows, Numbers(dropped))
    ensures Sound(rd, rows, Triggered(l, dropped)) <==> Covered(rd, rows, Triggered(l, dropped))
    ensures var ns := NotPassed(Numbers(dropped), Mark(l.watermark));
            && (Mark(l.watermark) < Mark(Triggered(l, dropped).watermark) <==> ns != [])
            && (Covered(rd, rows, Triggered(l, dropped)) <==> ns == [] || NoneBelow(rd, rows, MinOf(ns), Mark(l.watermark)))
  {
    StoredPositive(rows, Numbers(dropped));
    TriggerRanges(l, dropped);
    var ns := NotPassed(Numbers(dropped), Mark(l.watermark));
    var trimmed := TriggeredIs(l, dropped);
    if ns != [] {
      NotPassedMembers(Numbers(dropped), Mark(l.watermark));
      assert MaxOf(ns) in Numbers(dropped);
      RangeExact(rd, rows, l, Event(MinOf(ns), MaxOf(ns), true, trimmed));
    }
  }

  // A row in front of a slice is not in the range of the slice.
  lemma InFrontOf(rows: seq<Row>, p: nat, q: nat, n: nat, j: nat)
    requires p <= q <= |rows| && Stored(rows) && Numbered(rows, p, q, n) && j < p
    ensures rows[j].seqNo < n
  {
    var i :| p <= i < q && rows[i].seqNo == n;
  }

  // What the trim drops of its window contains a row that was not passed, or nothing
  // shown below the first row it drops behind the window was left.
  ghost predicate LiveFollows(rd: Reader, rows: seq<Row>, s: Snapshot, count: nat, live: seq<Message>, l: Ledger)
    requires s.length <= |rows|
  {
    var mark := Mark(l.watermark);
    var ns := NotPassed(Numbers(live), mark);
    NotPassed(Numbers(OldestShown(rd, rows, s, count)), mark) != [] || ns == [] || NoneBelow(rd, rows, MinOf(ns), mark)
  }

  lemma {:induction false} NotPassedConcat(a: seq<nat>, b: seq<nat>, mark: nat)
    ensures NotPassed(a + b, mark) == NotPassed(a, mark) + NotPassed(b, mark)
  {
    if mark != 0 {
      FreshConcat(a, b, mark);
    }
  }

  lemma {:induction false} FreshConcat(a: seq<nat>, b: seq<nat>, mark: nat)
    ensures Fresh(a + b, mark) == Fresh(a, mark) + Fresh(b, mark)
  {
    if b == [] {
      assert a + b == a && Fresh(a, mark) + [] == Fresh(a, mark);
    } else {
      var init, last := b[..|b| - 1], b[|b| - 1];
      FreshConcat(a, init, mark);
      assert (a + b)[..|a + b| - 1] == a + init;
      Assoc(Fresh(a, mark), Fresh(init, mark), if last > mark then [last] else []);
    }
  }

  lemma MinFirst(a: seq<nat>, b: seq<nat>)
    requires a != [] && forall m, n :: m in a && n in b ==> m <= n
    ensures MinOf(a + b) == MinOf(a)
  {
    assert MinOf(a) in a + b;
    assert MinOf(a + b) in a || MinOf(a + b) in b;
  }

  // When the window contributes a row, the first one is decided there.
  lemma WindowDecides(rd: Reader, rows: seq<Row>, w: nat, q: nat, ns: seq<nat>, mark: nat)
    requires w <= q <= |rows| && Stored(rows) && NumbersOf(rd, rows, w, q, ns) && NotPassed(ns, mark) != []
    ensures NoneBelow(rd, rows, MinOf(NotPassed(ns, mark)), mark) <==> PassedBefore(rd, rows, w, mark)
  {
    AllPositive(rd, rows, w, q, ns);
    NotPassedMembers(ns, mark);
    var n := MinOf(NotPassed(ns, mark));
    assert Numbered(rows, w, q, n);
    forall j | 0 <= j < w ensures rows[j].seqNo < n {
      InFrontOf(rows, w, q, n, j);
    }
    forall j | 0 <= j < |rows| && rows[j].seqNo < n ensures j < q {
      InFront(rows, w, q, n, j);
    }
  }

  lemma BehindAll(rd: Reader, rows: seq<Row>, w: nat, q: nat, length: nat, a: seq<nat>, b: seq<nat>)
    requires w <= q <= length <= |rows| && Stored(rows) && NumbersOf(rd, rows, w, q, a)
    requires forall n :: n in b ==> Numbered(rows, length, |rows|, n)
    ensures forall m, n :: m in a && n in b ==> m <= n
  {
    forall m, n | m in a && n in b ensures m <= n {
      var i :| w <= i < q && rows[i].seqNo == m;
      InFrontOf(rows, length, |rows|, n, i);
    }
  }

  // Rows dropped behind the window decide alone when the window contributes none.
  lemma LiveDecides(rd: Reader, rows: seq<Row>, length: nat, w: nat, ns: seq<nat>, mark: nat)
    requires w <= length <= |rows| && Stored(rows) && (forall n :: n in ns ==> Numbered(rows, length, |rows|, n)) && ns != []
    requires NoneBelow(rd, rows, MinOf(ns), mark)
    ensures PassedBefore(rd, rows, w, mark)
  {
    forall j | 0 <= j < w ensures rows[j].seqNo < MinOf(ns) {
      InFrontOf(rows, length, |rows|, MinOf(ns), j);
    }
  }

  lemma TrimStored(rd: Reader, rows: seq<Row>, w: nat, q: nat, length: nat, a: seq<nat>, b: seq<nat>)
    requires w <= q <= length <= |rows| && NumbersOf(rd, rows, w, q, a)
    requires forall n :: n in b ==> Numbered(rows, length, |rows|, n)
    ensures AllStored(rows, a + b)
  {
    forall n | n in a + b ensures Numbered(rows, 0, |rows|, n) {
      if n in a {
        var j :| w <= j < q && rows[j].seqNo == n;
      } else {
        var j :| length <= j < |rows| && rows[j].seqNo == n;
      }
    }
  }

  // The first row dropped that was not passed has nothing left in front of it: told
  // by the window and by what is dropped behind it.
  lemma FirstDropped(rd: Reader, rows: seq<Row>, w: nat, q: nat, length: nat, a: seq<nat>, b: seq<nat>, mark: nat)
    requires w <= q <= length <= |rows| && Stored(rows) && NumbersOf(rd, rows, w, q, a)
    requires forall n :: n in b ==> Numbered(rows, length, |rows|, n)
    requires NotPassed(a + b, mark) != []
    ensures NoneBelow(rd, rows, MinOf(NotPassed(a + b, mark)), mark) <==>
      && PassedBefore(rd, rows, w, mark)
      && (NotPassed(a, mark) != [] || NotPassed(b, mark) == [] || NoneBelow(rd, rows, MinOf(NotPassed(b, mark)), mark))
  {
    var fa, fb := NotPassed(a, mark), NotPassed(b, mark);
    NotPassedConcat(a, b, mark);
    FreshMembers(a, mark);
    FreshMembers(b, mark);
    if fa != [] {
      BehindAll(rd, rows, w, q, length, a, b);
      MinFirst(fa, fb);
      WindowDecides(rd, rows, w, q, a, mark);
    } else {
      assert fa + fb == fb;
      if NoneBelow(rd, rows, MinOf(fb), mark) {
        LiveDecides(rd, rows, length, w, fb, mark);
      }
    }
  }

  // A trim keeps every row covered if and only if it does not advance the watermark,
  // or the rows outside its window that the transcript shows have been passed and
  // what it drops behind its window follows what it drops of it.
  lemma TrimExact(rd: Reader, rows: seq<Row>, s: Snapshot, count: nat, live: seq<Message>, l: Ledger)
    requires Sound(rd, rows, l) && s.length <= |rows| && 1 <= s.limit && LiveRows(rows, s, live)
    ensures WindowAt(rows, s) <= |rows|
    ensures Sound(rd, rows, Trimmed(rd, rows, s, count, live, l)) <==>
      !Advances(rd, rows, s, count, live, l) ||
      (PassedBefore(rd, rows, WindowAt(rows, s), Mark(l.watermark)) && LiveFollows(rd, rows, s, count, live, l))
    ensures Sound(rd, rows, Trimmed(rd, rows, s, count, live, l)) <==> Covered(rd, rows, Trimmed(rd, rows, s, count, live, l))
    ensures Mark(l.watermark) <= Mark(Trimmed(rd, rows, s, count, live, l).watermark)
  {
    var w, shown, mark := WindowAt(rows, s), OldestShown(rd, rows, s, count), Mark(l.watermark);
    var q := TrimNumbers(rd, rows, s, count);
    NumbersConcat(shown, live);
    TrimStored(rd, rows, w, q, s.length, Numbers(shown), Numbers(live));
    TriggerExact(rd, rows, l, shown + live);
    var ns := NotPassed(Numbers(shown + live), mark);
    if ns != [] {
      FirstDropped(rd, rows, w, q, s.length, Numbers(shown), Numbers(live), mark);
    } else {
      TriggerNothing(l, shown + live);
    }
  }

  lemma TriggerNothing(l: Ledger, dropped: seq<Message>)
    requires NotPassed(Numbers(dropped), Mark(l.watermark)) == []
    ensures Triggered(l, dropped) == l
  {
  }

  // ---- Every run ------------------------------------------------------------------------------

  // Everything outside the window of the snapshot has been passed.
  ghost predicate Outside(rd: Reader, rows: seq<Row>, s: Snapshot, l: Ledger) {
    s.length <= |rows| && WindowAt(rows, s) <= |rows| && PassedBefore(rd, rows, WindowAt(rows, s), Mark(l.watermark))
  }

  predicate WithinCap(rows: seq<Row>, s: Snapshot) {
    s.length <= |rows| && Total(rows, s) <= s.limit + MAX_ROWS_PER_TURN
  }

  ghost predicate Tracked(rd: Reader, st: Store) {
    forall s :: s in st.overflowed && WithinCap(st.rows, s) ==> Outside(rd, st.rows, s, st.ledger)
  }

  ghost predicate Lengths(st: Store) {
    forall s :: s in st.overflowed ==> s.length <= |st.rows|
  }

  ghost predicate Good(rd: Reader, st: Store) {
    Sound(rd, st.rows, st.ledger) && Lengths(st) && Tracked(rd, st)
  }

  // A trim that commits comes after the overflow compaction of the same turn, if there
  // is anything outside its window, which did not fail and was at most 200 rows; and
  // if it drops a message that was folded in, it also drops a row of its window that
  // was not passed.
  ghost predicate Careful(rd: Reader, st: Store, a: Action)
    requires Enabled(st, a)
  {
    a.Trim? && a.commits ==>
      && (Total(st.rows, a.s) > a.s.limit ==> a.s in st.overflowed && WithinCap(st.rows, a.s))
      && (Numbers(a.live) != [] ==> NotPassed(Numbers(OldestShown(rd, st.rows, a.s, a.count)), Mark(st.ledger.watermark)) != [])
  }

  ghost predicate Runs(rd: Reader, st: Store, run: seq<Action>)
    decreases |run|
  {
    run == [] || (Enabled(st, run[0]) && Runs(rd, Next(rd, st, run[0]), run[1..]))
  }

  ghost predicate AllCareful(rd: Reader, st: Store, run: seq<Action>)
    requires Runs(rd, st, run)
    decreases |run|
  {
    run == [] || (Careful(rd, st, run[0]) && AllCareful(rd, Next(rd, st, run[0]), run[1..]))
  }

  ghost function End(rd: Reader, st: Store, run: seq<Action>): Store
    requires Runs(rd, st, run)
    decreases |run|
  {
    if run == [] then st else End(rd, Next(rd, st, run[0]), run[1..])
  }

  const Empty := Store([], Ledger(None, []), {})

  lemma OutsideStays(rd: Reader, rows: seq<Row>, more: seq<Row>, s: Snapshot, l: Ledger, after: Ledger)
    requires Outside(rd, rows, s, l) && Mark(l.watermark) <= Mark(after.watermark)
    ensures Outside(rd, rows + more, s, after)
  {
    assert (rows + more)[..s.length] == rows[..s.length];
    rd.SeenPrefix(rows, more, WindowAt(rows, s));
  }

  lemma TrackedStays(rd: Reader, st: Store, more: seq<Row>, after: Ledger)
    requires Tracked(rd, st) && Lengths(st) && Mark(st.ledger.watermark) <= Mark(after.watermark)
    ensures Tracked(rd, Store(st.rows + more, after, st.overflowed))
  {
    var rows := st.rows + more;
    forall s | s in st.overflowed && WithinCap(rows, s) ensures Outside(rd, rows, s, after) {
      assert rows[..s.length] == st.rows[..s.length];
      OutsideStays(rd, st.rows, more, s, st.ledger, after);
    }
  }

  // After its overflow compaction nothing outside the window of a turn is left when
  // it is at most 200 rows.
  lemma OverflowOutside(rd: Reader, rows: seq<Row>, s: Snapshot, l: Ledger)
    requires Sound(rd, rows, l) && s.length <= |rows| && Mark(s.watermark) <= Mark(l.watermark) && 1 <= s.limit
    ensures Sound(rd, rows, Overflowed(rd, rows, s, l)) && Mark(l.watermark) <= Mark(Overflowed(rd, rows, s, l).watermark)
    ensures WithinCap(rows, s) ==> Outside(rd, rows, s, Overflowed(rd, rows, s, l))
  {
    SplitAt(rows, s);
    if Total(rows, s) > s.limit {
      CountBounds(Total(rows, s), s.limit);
      OverflowSound(rd, rows, s, l);
    } else {
      PassedFrom(rd, rows, s, Mark(l.watermark));
    }
  }

  lemma TrimSound(rd: Reader, st: Store, s: Snapshot, count: nat, live: seq<Message>)
    requires Good(rd, st) && Enabled(st, Trim(s, count, live, true)) && Careful(rd, st, Trim(s, count, live, true))
    ensures Sound(rd, st.rows, Trimmed(rd, st.rows, s, count, live, st.ledger))
    ensures Mark(st.ledger.watermark) <= Mark(Trimmed(rd, st.rows, s, count, live, st.ledger).watermark)
  {
    SplitAt(st.rows, s);
    if Total(st.rows, s) <= s.limit {
      PassedFrom(rd, st.rows, s, Mark(st.ledger.watermark));
    }
    TrimExact(rd, st.rows, s, count, live, st.ledger);
    LiveNone(rd, st.rows, s, count, live, st.ledger);
  }

  lemma LiveNone(rd: Reader, rows: seq<Row>, s: Snapshot, count: nat, live: seq<Message>, l: Ledger)
    requires s.length <= |rows|
    requires Numbers(live) != [] ==> NotPassed(Numbers(OldestShown(rd, rows, s, count)), Mark(l.watermark)) != []
    ensures LiveFollows(rd, rows, s, count, live, l)
  {
    if Numbers(live) == [] {
      assert NotPassed(Numbers(live), Mark(l.watermark)) == [];
    }
  }

  lemma LedgerGood(rd: Reader, st: Store, after: Ledger)
    requires Good(rd, st) && Sound(rd, st.rows, after) && Mark(st.ledger.watermark) <= Mark(after.watermark)
    ensures Good(rd, st.(ledger := after))
  {
    TrackedStays(rd, st, [], after);
    assert st.rows + [] == st.rows;
  }

  lemma OverflowGood(rd: Reader, st: Store, s: Snapshot)
    requires Good(rd, st) && Fits(st, s)
    ensures Good(rd, Next(rd, st, Overflow(s, true)))
  {
    var after := Overflowed(rd, st.rows, s, st.ledger);
    OverflowOutside(rd, st.rows, s, st.ledger);
    LedgerGood(rd, st, after);
  }

  lemma AppendGood(rd: Reader, st: Store, r: Row)
    requires Good(rd, st) && Stored(st.rows + [r])
    ensures Good(rd, st.(rows := st.rows + [r]))
  {
    AppendSound(rd, st.rows, r, st.ledger);
    TrackedStays(rd, st, [r], st.ledger);
  }

  lemma StepGood(rd: Reader, st: Store, a: Action)
    requires Good(rd, st) && Enabled(st, a) && Careful(rd, st, a)
    ensures Good(rd, Next(rd, st, a))
  {
    match a
    case Append(row) => AppendGood(rd, st, row);
    case Overflow(s, commits) =>
      if commits {
        OverflowGood(rd, st, s);
      }
    case Trim(s, count, live, commits) =>
      if commits {
        TrimSound(rd, st, s, count, live);
        LedgerGood(rd, st, Trimmed(rd, st.rows, s, count, live, st.ledger));
      }
    case Admin(s, keepRecent, commits) =>
      if commits {
        AfterAdminSound(rd, st.rows, s, keepRecent, st.ledger);
        LedgerGood(rd, st, AfterAdmin(rd, st.rows, s, keepRecent, st.ledger));
      }
  }

  lemma {:induction false} RunGood(rd: Reader, st: Store, run: seq<Action>)
    requires Good(rd, st) && Runs(rd, st, run) && AllCareful(rd, st, run)
    ensures Good(rd, End(rd, st, run))
    decreases |run|
  {
    if run != [] {
      StepGood(rd, st, run[0]);
      RunGood(rd, Next(rd, st, run[0]), run[1..]);
    }
  }

  // In every careful interleaving of turns and admin compactions every row at or below
  // the watermark is hidden or in the range of an event.
  lemma NoRowIsLost(rd: Reader, run: seq<Action>, j: nat)
    requires Runs(rd, Empty, run) && AllCareful(rd, Empty, run)
    requires var st := End(rd, Empty, run);
             j < |st.rows| && st.rows[j].seqNo <= Mark(st.ledger.watermark) && rd.Seen(st.rows, j)
    ensures var st := End(rd, Empty, run); InEvents(st.ledger.events, st.rows[j].seqNo)
  {
    RunGood(rd, Empty, run);
  }

  // ---- Exactly which runs lose a row --------------------------------------------------------------

  ghost predicate TrimOk(rd: Reader, st: Store, a: Action)
    requires Enabled(st, a)
  {
    a.Trim? && a.commits && Advances(rd, st.rows, a.s, a.count, a.live, st.ledger) ==>
      && Outside(rd, st.rows, a.s, st.ledger)
      && LiveFollows(rd, st.rows, a.s, a.count, a.live, st.ledger)
  }

  ghost predicate AllTrimsOk(rd: Reader, st: Store, run: seq<Action>)
    requires Runs(rd, st, run)
    decreases |run|
  {
    run == [] || (TrimOk(rd, st, run[0]) && AllTrimsOk(rd, Next(rd, st, run[0]), run[1..]))
  }

  ghost predicate CoveredThroughout(rd: Reader, st: Store, run: seq<Action>)
    requires Runs(rd, st, run)
    decreases |run|
  {
    Covered(rd, st.rows, st.ledger) && (run != [] ==> CoveredThroughout(rd, Next(rd, st, run[0]), run[1..]))
  }

  lemma StepIff(rd: Reader, st: Store, a: Action)
    requires Sound(rd, st.rows, st.ledger) && Enabled(st, a)
    ensures var st' := Next(rd, st, a);
            && (Sound(rd, st'.rows, st'.ledger) <==> Covered(rd, st'.rows, st'.ledger))
            && (Sound(rd, st'.rows, st'.ledger) <==> TrimOk(rd, st, a))
  {
    match a
    case Append(row) => AppendSound(rd, st.rows, row, st.ledger);
    case Overflow(s, commits) => OverflowOutside(rd, st.rows, s, st.ledger);
    case Trim(s, count, live, commits) => TrimExact(rd, st.rows, s, count, live, st.ledger);
    case Admin(s, keepRecent, commits) => AfterAdminSound(rd, st.rows, s, keepRecent, st.ledger);
  }

  // Every row is covered at every point of a run if and only if no trim of it moves
  // the watermark over a shown row that its window or what it drops leaves out.
  // Appends, overflow compactions, admin compactions and failed writes never lose one.
  lemma {:induction false} CoveredThroughoutIff(rd: Reader, st: Store, run: seq<Action>)
    requires Sound(rd, st.rows, st.ledger) && Runs(rd, st, run)
    ensures CoveredThroughout(rd, st, run) <==> AllTrimsOk(rd, st, run)
    decreases |run|
  {
    if run != [] {
      var st' := Next(rd, st, run[0]);
      StepIff(rd, st, run[0]);
      if Sound(rd, st'.rows, st'.ledger) {
        CoveredThroughoutIff(rd, st', run[1..]);
      } else {
        NotCovered(rd, st', run[1..]);
      }
    }
  }

  lemma NotCovered(rd: Reader, st: Store, run: seq<Action>)
    requires Runs(rd, st, run) && !Covered(rd, st.rows, st.ledger)
    ensures !CoveredThroughout(rd, st, run)
  {
  }

  // ---- What holds of careless runs too ----------------------------------------------------------

  ghost predicate Ordered(st: Store) {
    Stored(st.rows) && RangesBelow(st.ledger) && RangesIncrease(st.ledger.events)
  }

  lemma PositiveSlice(rd: Reader, rows: seq<Row>, p: nat, q: nat, c: Carry)
    requires p <= q <= |rows| && Stored(rows) && Lenient(rd, rows, p, c)
    ensures forall n :: n in Numbers(rd.Converted(c, rows[p..q])) ==> 1 <= n
  {
    SliceNumbers(rd, rows, p, q, c);
    AllPositive(rd, rows, p, q, Numbers(rd.Converted(c, rows[p..q])));
  }

  lemma OverflowOrdered(rd: Reader, rows: seq<Row>, s: Snapshot, l: Ledger)
    requires Stored(rows) && RangesBelow(l) && RangesIncrease(l.events) && s.length <= |rows| && 1 <= s.limit
    ensures var after := Overflowed(rd, rows, s, l);
            RangesBelow(after) && RangesIncrease(after.events) && Mark(l.watermark) <= Mark(after.watermark)
  {
    if Total(rows, s) > s.limit {
      var p, q := OverflowSlice(rows, s);
      PositiveSlice(rd, rows, p, q, Start);
      TriggerRanges(l, rd.Converted(Start, rows[p..q]));
    }
  }

  lemma TrimOrdered(rd: Reader, rows: seq<Row>, s: Snapshot, count: nat, live: seq<Message>, l: Ledger)
    requires Stored(rows) && RangesBelow(l) && RangesIncrease(l.events)
    requires s.length <= |rows| && 1 <= s.limit && LiveRows(rows, s, live)
    ensures var after := Trimmed(rd, rows, s, count, live, l);
            RangesBelow(after) && RangesIncrease(after.events) && Mark(l.watermark) <= Mark(after.watermark)
  {
    var shown := OldestShown(rd, rows, s, count);
    var q := TrimNumbers(rd, rows, s, count);
    NumbersConcat(shown, live);
    TrimStored(rd, rows, WindowAt(rows, s), q, s.length, Numbers(shown), Numbers(live));
    StoredPositive(rows, Numbers(shown + live));
    TriggerRanges(l, shown + live);
  }

  lemma AdminOrdered(rd: Reader, rows: seq<Row>, l: Ledger)
    requires RangesBelow(l) && RangesIncrease(l.events) && rows != []
    ensures var after := CompactedByAdmin(rd, rows, l);
            RangesBelow(after) && RangesIncrease(after.events) && Mark(l.watermark) <= Mark(after.watermark)
  {
    AdminRanges(l, rd.Converted(Start, rows));
  }

  lemma StepOrdered(rd: Reader, st: Store, a: Action)
    requires Ordered(st) && Enabled(st, a)
    ensures Ordered(Next(rd, st, a)) && Mark(st.ledger.watermark) <= Mark(Next(rd, st, a).ledger.watermark)
  {
    match a
    case Append(_) =>
    case Overflow(s, _) => OverflowOrdered(rd, st.rows, s, st.ledger);
    case Trim(s, count, live, _) => TrimOrdered(rd, st.rows, s, count, live, st.ledger);
    case Admin(s, keepRecent, _) =>
      if ToCompact(st.rows, s, keepRecent) != [] {
        AdminOrdered(rd, ToCompact(st.rows, s, keepRecent), st.ledger);
      }
  }

  // The watermark never goes back, and the ranges of trims and overflows lie one
  // above the other and above whatever was recorded before them.
  lemma {:induction false} WatermarkAdvances(rd: Reader, st: Store, run: seq<Action>)
    requires Ordered(st) && Runs(rd, st, run)
    ensures Ordered(End(rd, st, run)) && Mark(st.ledger.watermark) <= Mark(End(rd, st, run).ledger.watermark)
    decreases |run|
  {
    if run != [] {
      StepOrdered(rd, st, run[0]);
      WatermarkAdvances(rd, Next(rd, st, run[0]), run[1..]);
    }
  }

  // ---- More than 200 rows outside the window ---------------------------------------------------

  lemma TriggeredAtMost(rd: Reader, rows: seq<Row>, p: nat, q: nat, l: Ledger, dropped: seq<Message>)
    requires p < q <= |rows| && Stored(rows) && NumbersOf(rd, rows, p, q, Numbers(dropped))
    requires Mark(l.watermark) <= rows[q - 1].seqNo
    ensures Mark(Triggered(l, dropped).watermark) <= rows[q - 1].seqNo
  {
    AllPositive(rd, rows, p, q, Numbers(dropped));
    NotPassedMembers(Numbers(dropped), Mark(l.watermark));
    forall n | n in Numbers(dropped) ensures n <= rows[q - 1].seqNo {
      var j :| p <= j < q && rows[j].seqNo == n;
      assert j < q - 1 ==> rows[j].seqNo < rows[q - 1].seqNo;
    }
  }

  lemma CompactedAtMost(rd: Reader, rows: seq<Row>, p: nat, q: nat, l: Ledger)
    requires p < q <= |rows| && Stored(rows) && Mark(l.watermark) <= rows[q - 1].seqNo
    ensures Mark(Compacted(rd, rows[p..q], l).watermark) <= rows[q - 1].seqNo
  {
    SliceNumbers(rd, rows, p, q, Start);
    TriggeredAtMost(rd, rows, p, q, l, rd.Converted(Start, rows[p..q]));
  }

  // The rows between the 200 that one turn compacts and its window.
  ghost predicate ShownBetween(rd: Reader, rows: seq<Row>, p: nat, q: nat)
    requires q <= |rows|
  {
    exists j :: p <= j < q && rd.Seen(rows, j)
  }

  lemma NotPassedBetween(rd: Reader, rows: seq<Row>, p: nat, q: nat, mark: nat)
    requires 0 < p <= q <= |rows| && Stored(rows) && PassedBefore(rd, rows, p, mark) && mark <= rows[p - 1].seqNo
    ensures PassedBefore(rd, rows, q, mark) <==> !ShownBetween(rd, rows, p, q)
  {
    assert forall j :: p <= j < q ==> mark < rows[j].seqNo;
  }

  // A turn with more than 200 rows outside its window that also trims keeps every
  // row covered if and only if the trim does not move the watermark, or none of the
  // rows past the 200 and before the window is shown and what it drops behind its
  // window follows what it drops of it.
  lemma CapExact(rd: Reader, rows: seq<Row>, s: Snapshot, count: nat, live: seq<Message>, l: Ledger)
    requires Sound(rd, rows, l) && s.length <= |rows| && 1 <= s.limit && LiveRows(rows, s, live)
    requires Mark(s.watermark) == Mark(l.watermark) && !WithinCap(rows, s)
    ensures From(rows, s) + MAX_ROWS_PER_TURN < WindowAt(rows, s) <= |rows|
    ensures var after := Overflowed(rd, rows, s, l);
            Sound(rd, rows, Trimmed(rd, rows, s, count, live, after)) <==>
            !Advances(rd, rows, s, count, live, after) ||
            (!ShownBetween(rd, rows, From(rows, s) + MAX_ROWS_PER_TURN, WindowAt(rows, s)) &&
             LiveFollows(rd, rows, s, count, live, after))
  {
    var after := Overflowed(rd, rows, s, l);
    SplitAt(rows, s);
    CountBounds(Total(rows, s), s.limit);
    var p, q := OverflowSlice(rows, s);
    OverflowSound(rd, rows, s, l);
    SplitMarks(rows, s, q - 1);
    CompactedAtMost(rd, rows, p, q, l);
    NotPassedBetween(rd, rows, q, WindowAt(rows, s), Mark(after.watermark));
    TrimExact(rd, rows, s, count, live, after);
  }

  lemma RaisesTo(l: Ledger, dropped: seq<Message>, n: nat)
    requires n in Numbers(dropped) && Mark(l.watermark) < n && forall i :: i in Numbers(dropped) ==> 1 <= i
    ensures n <= Mark(Triggered(l, dropped).watermark)
  {
    NotPassedMembers(Numbers(dropped), Mark(l.watermark));
  }

  // Every conversation whose rows are all shown loses a row this way as soon as it
  // has more than 200 rows outside the window.
  lemma OverCapSkips(rd: Reader, rows: seq<Row>, limit: nat)
    requires Stored(rows) && (forall j :: 0 <= j < |rows| ==> rd.Seen(rows, j))
    requires 2 <= limit && limit + MAX_ROWS_PER_TURN < |rows|
    ensures var s, l := Snapshot(|rows|, None, limit), Ledger(None, []);
            Sound(rd, rows, l) && !Sound(rd, rows, Trimmed(rd, rows, s, 1, [], Overflowed(rd, rows, s, l)))
  {
    var s, l := Snapshot(|rows|, None, limit), Ledger(None, []);
    assert Numbers([]) == [];
    SplitAt(rows, s);
    CapExact(rd, rows, s, 1, [], l);
    assert rd.Seen(rows, MAX_ROWS_PER_TURN);
    FirstOfWindow(rd, rows, s, l);
  }

  lemma WindowHead(rd: Reader, rows: seq<Row>, s: Snapshot, w: nat)
    requires Stored(rows) && s.length <= |rows| && 1 <= s.limit && 0 < Total(rows, s)
    requires w == WindowAt(rows, s) && w < s.length - 1 && rd.Seen(rows, w)
    ensures rows[w].seqNo in Numbers(OldestShown(rd, rows, s, 1))
    ensures forall n :: n in Numbers(OldestShown(rd, rows, s, 1)) ==> 1 <= n
  {
    var q := TrimSlice(rows, s, 1, w);
    TrimLenient(rd, rows, s, w);
    var carry := rd.CarryAfter(Start, WindowOf(rows[..s.length], s).1);
    SliceNumbers(rd, rows, w, q, carry);
    AllPositive(rd, rows, w, q, Numbers(rd.Converted(carry, rows[w..q])));
  }

  lemma StopsBeforeWindow(rd: Reader, rows: seq<Row>, s: Snapshot, l: Ledger)
    requires Stored(rows) && s.length <= |rows| && 1 <= s.limit && Mark(s.watermark) == Mark(l.watermark)
    requires !WithinCap(rows, s) && WindowAt(rows, s) < |rows|
    ensures Mark(Overflowed(rd, rows, s, l).watermark) < rows[WindowAt(rows, s)].seqNo
  {
    CountBounds(Total(rows, s), s.limit);
    var p, q := OverflowSlice(rows, s);
    SplitMarks(rows, s, q - 1);
    CompactedAtMost(rd, rows, p, q, l);
    assert rows[q - 1].seqNo < rows[WindowAt(rows, s)].seqNo;
  }

  lemma FirstOfWindow(rd: Reader, rows: seq<Row>, s: Snapshot, l: Ledger)
    requires Stored(rows) && s.length == |rows| && 2 <= s.limit && Mark(s.watermark) == Mark(l.watermark)
    requires !WithinCap(rows, s) && WindowAt(rows, s) < |rows| && rd.Seen(rows, WindowAt(rows, s))
    ensures Advances(rd, rows, s, 1, [], Overflowed(rd, rows, s, l))
  {
    SplitAt(rows, s);
    var shown := OldestShown(rd, rows, s, 1);
    WindowHead(rd, rows, s, WindowAt(rows, s));
    StopsBeforeWindow(rd, rows, s, l);
    assert shown + [] == shown;
    RaisesTo(Overflowed(rd, rows, s, l), shown, rows[WindowAt(rows, s)].seqNo);
  }

  // ---- A failed overflow compaction, and a folded message ---------------------------------------

  lemma TwoSteps(rd: Reader, st: Store, a: Action, b: Action)
    requires Enabled(st, a) && Enabled(Next(rd, st, a), b)
    ensures Runs(rd, st, [a, b]) && End(rd, st, [a, b]) == Next(rd, Next(rd, st, a), b)
  {
    var mid := Next(rd, st, a);
    var none: seq<Action> := [];
    assert [a, b][1..] == [b] && [b][1..] == none;
    assert Runs(rd, mid, [b]) && End(rd, mid, [b]) == End(rd, Next(rd, mid, b), none);
  }

  lemma UncompactedSkips(rd: Reader, rows: seq<Row>, s: Snapshot)
    requires Stored(rows) && (forall j :: 0 <= j < |rows| ==> rd.Seen(rows, j))
    requires s == Snapshot(|rows|, None, s.limit) && 2 <= s.limit < |rows|
    ensures Sound(rd, rows, Ledger(None, [])) && !Covered(rd, rows, Trimmed(rd, rows, s, 1, [], Ledger(None, [])))
  {
    var l, shown := Ledger(None, []), OldestShown(rd, rows, s, 1);
    FirstVisible(rows, s);
    WindowHead(rd, rows, s, WindowAt(rows, s));
    assert shown + [] == shown;
    RaisesTo(l, shown, rows[WindowAt(rows, s)].seqNo);
    LiveNumbersNone(rows, s);
    TrimExact(rd, rows, s, 1, [], l);
    assert rd.Seen(rows, 0) && 0 < rows[0].seqNo;
  }

  lemma LiveNumbersNone(rows: seq<Row>, s: Snapshot)
    ensures Numbers([]) == [] && (s.length <= |rows| ==> LiveRows(rows, s, []))
  {
  }

  // Within the cap too: when the overflow compaction of a turn fails and the turn then
  // trims, every conversation whose rows are all shown loses the rows in between.
  lemma FailedOverflowSkips(rd: Reader, rows: seq<Row>, limit: nat)
    requires Stored(rows) && (forall j :: 0 <= j < |rows| ==> rd.Seen(rows, j)) && 2 <= limit < |rows|
    ensures var st, s := Store(rows, Ledger(None, []), {}), Snapshot(|rows|, None, limit);
            var run := [Overflow(s, false), Trim(s, 1, [], true)];
            && Sound(rd, rows, st.ledger) && Runs(rd, st, run)
            && !Covered(rd, End(rd, st, run).rows, End(rd, st, run).ledger)
  {
    var st, s := Store(rows, Ledger(None, []), {}), Snapshot(|rows|, None, limit);
    UncompactedSkips(rd, rows, s);
    LiveNumbersNone(rows, s);
    TwoSteps(rd, st, Overflow(s, false), Trim(s, 1, [], true));
  }

  lemma FirstVisible(rows: seq<Row>, s: Snapshot)
    requires Stored(rows) && s == Snapshot(|rows|, None, s.limit)
    ensures From(rows, s) == 0 && Total(rows, s) == |rows|
  {
    NothingUpTo(rows);
    assert rows[..|rows|] == rows;
    BelowAndVisible(rows, None);
  }

  // A message folded into the first turn of a conversation and dropped by its trim
  // takes the watermark over the turn's own message, which no event covers.
  lemma FoldedSkips(rd: Reader, first: Row, folded: Row, text: string, note: string, limit: nat)
    requires Stored([first, folded]) && rd.Seen([first, folded], 0) && 1 <= limit
    ensures var rows, l, s := [first, folded], Ledger(None, []), Snapshot(1, None, limit);
            var live := [User(text, None), User(note, Some(folded.seqNo))];
            && Sound(rd, rows, l) && Enabled(Store(rows, l, {}), Trim(s, 0, live, true))
            && Trimmed(rd, rows, s, 0, live, l) == Ledger(Some(folded.seqNo), [Event(folded.seqNo, folded.seqNo, true, 2)])
            && !Covered(rd, rows, Trimmed(rd, rows, s, 0, live, l))
  {
    var rows, l, s := [first, folded], Ledger(None, []), Snapshot(1, None, limit);
    var live := [User(text, None), User(note, Some(folded.seqNo))];
    TwoNumbers(text, note, folded.seqNo);
    assert rows[1].seqNo == folded.seqNo && Numbered(rows, 1, 2, folded.seqNo);
    NoHistory(rd, rows, s);
    var dropped := OldestShown(rd, rows, s, 0) + live;
    assert dropped == live;
    assert rows[0].seqNo == first.seqNo && rows[0].seqNo < rows[1].seqNo;
    assert l.events + [Event(folded.seqNo, folded.seqNo, true, 2)] == [Event(folded.seqNo, folded.seqNo, true, 2)];
  }

  lemma TwoNumbers(text: string, note: string, n: nat)
    ensures Numbers([User(text, None), User(note, Some(n))]) == [n]
  {
    OneNumber(User(text, None));
    OneNumber(User(note, Some(n)));
    NumbersConcat([User(text, None)], [User(note, Some(n))]);
  }

  lemma NoHistory(rd: Reader, rows: seq<Row>, s: Snapshot)
    requires s.length <= |rows|
    ensures OldestShown(rd, rows, s, 0) == []
  {
    var w := WindowOf(rows[..s.length], s);
    assert w.0[..0] == [];
  }

  // ---- A backlog drains ----------------------------------------------------------------------------

  lemma {:induction false} ConvertedNumbered(rd: Reader, c: Carry, rows: seq<Row>)
    requires rd.Converted(c, rows) != []
    ensures Numbers(rd.Converted(c, rows)) != []
  {
    var init, last := rows[..|rows| - 1], rows[|rows| - 1];
    var before, e := rd.Converted(c, init), rd.Emitted(rd.CarryAfter(c, init), last);
    NumbersConcat(before, e);
    if e != [] {
      ShownNumber(rd, rd.CarryAfter(c, init).prev, last);
      assert last.seqNo in Numbers(e);
    } else {
      ConvertedNumbered(rd, c, init);
    }
  }

  lemma CompactedAtLeast(rd: Reader, rows: seq<Row>, p: nat, q: nat, l: Ledger)
    requires p < q <= |rows| && Stored(rows) && Mark(l.watermark) < rows[p].seqNo
    ensures rows[p].seqNo <= Mark(Compacted(rd, rows[p..q], l).watermark)
  {
    var messages := rd.Converted(Start, rows[p..q]);
    if messages == [] {
      assert p < q - 1 ==> rows[p].seqNo < rows[q - 1].seqNo;
    } else {
      ConvertedNumbered(rd, Start, rows[p..q]);
      SliceNumbers(rd, rows, p, q, Start);
      TriggeredAtLeast(rd, rows, p, q, l, messages);
    }
  }

  lemma TriggeredAtLeast(rd: Reader, rows: seq<Row>, p: nat, q: nat, l: Ledger, dropped: seq<Message>)
    requires p < q <= |rows| && Stored(rows) && Mark(l.watermark) < rows[p].seqNo
    requires NumbersOf(rd, rows, p, q, Numbers(dropped)) && Numbers(dropped) != []
    ensures rows[p].seqNo <= Mark(Triggered(l, dropped).watermark)
  {
    var n := Numbers(dropped)[0];
    AllPositive(rd, rows, p, q, Numbers(dropped));
    assert Numbered(rows, p, q, n);
    FirstIsLeast(rows, p, q, n);
    RaisesTo(l, dropped, n);
  }

  lemma FirstIsLeast(rows: seq<Row>, p: nat, q: nat, n: nat)
    requires p < q <= |rows| && Stored(rows) && Numbered(rows, p, q, n)
    ensures rows[p].seqNo <= n
  {
    var j :| p <= j < q && rows[j].seqNo == n;
  }

  function Current(rows: seq<Row>, l: Ledger, limit: nat): Snapshot {
    Snapshot(|rows|, l.watermark, limit)
  }

  // Each turn that finds rows outside its window moves the watermark forward and
  // leaves fewer rows above it.
  lemma OverflowAdvances(rd: Reader, rows: seq<Row>, l: Ledger, limit: nat)
    requires Stored(rows) && 1 <= limit < Total(rows, Current(rows, l, limit))
    ensures var after := Overflowed(rd, rows, Current(rows, l, limit), l);
            && Mark(l.watermark) < Mark(after.watermark)
            && Total(rows, Current(rows, after, limit)) < Total(rows, Current(rows, l, limit))
  {
    var s := Current(rows, l, limit);
    var after := Overflowed(rd, rows, s, l);
    var p, q := OverflowSlice(rows, s);
    SplitMarks(rows, s, p);
    CompactedAtLeast(rd, rows, p, q, l);
    SplitAt(rows, s);
    SplitAt(rows, Current(rows, after, limit));
    SplitMarks(rows, Current(rows, after, limit), p);
  }

  function AfterTurns(rd: Reader, rows: seq<Row>, l: Ledger, limit: nat, turns: nat): Ledger
    requires 1 <= limit
    decreases turns
  {
    if turns == 0 then l
    else AfterTurns(rd, rows, Overflowed(rd, rows, Current(rows, l, limit), l), limit, turns - 1)
  }

  // A backlog of n rows is gone after n turns at the latest.
  lemma {:induction false} BacklogDrains(rd: Reader, rows: seq<Row>, l: Ledger, limit: nat, turns: nat)
    requires Stored(rows) && 1 <= limit && Total(rows, Current(rows, l, limit)) <= limit + turns
    ensures Total(rows, Current(rows, AfterTurns(rd, rows, l, limit, turns), limit)) <= limit
    decreases turns
  {
    if turns > 0 {
      if Total(rows, Current(rows, l, limit)) > limit {
        OverflowAdvances(rd, rows, l, limit);
      }
      BacklogDrains(rd, rows, Overflowed(rd, rows, Current(rows, l, limit), l), limit, turns - 1);
    }
  }

  // ---- What each write does, in the numbers of the rows --------------------------------------

  predicate Beyond(rows: seq<Row>, i: nat, watermark: Option<nat>) {
    i < |rows| && (watermark.None? || watermark.value < rows[i].seqNo)
  }

  // Compacting rows p to q: nothing for no rows; when none of them shows the watermark
  // passes them without an event; else it is the compaction of what they show.
  ghost predicate Compacts(rd: Reader, rows: seq<Row>, l: Ledger, after: Ledger, p: nat, q: nat, write: (Ledger, seq<Message>) -> Ledger)
    requires p <= q <= |rows|
  {
    var shown := rd.Converted(Start, rows[p..q]);
    if p == q then after == l
    else if shown == [] then
      && after.events == l.events
      && after.watermark == (if l.watermark.None? || l.watermark.value < rows[q - 1].seqNo then Some(rows[q - 1].seqNo) else l.watermark)
    else after == write(l, shown)
  }

  lemma BeyondFrom(rows: seq<Row>, s: Snapshot, i: nat)
    requires Stored(rows) && s.length <= |rows| && i < s.length
    ensures From(rows, s) <= i <==> Beyond(rows, i, s.watermark)
  {
    SplitMarks(rows, s, i);
  }

  lemma OverflowSliceIs(rows: seq<Row>, s: Snapshot) returns (p: nat, q: nat)
    requires Stored(rows) && s.length <= |rows| && 1 <= s.limit
    ensures p == From(rows, s) && p <= q <= s.length && ToOverflow(rows, s) == rows[p..q]
    ensures var total := s.length - p;
            q - p == if total <= s.limit then 0 else Min(Min(total - 1, total - s.limit + 32), 200)
  {
    SplitAt(rows, s);
    if s.limit < Total(rows, s) {
      p, q := OverflowSlice(rows, s);
    } else {
      p, q := From(rows, s), From(rows, s);
    }
  }

  lemma OverflowCompacts(rd: Reader, rows: seq<Row>, s: Snapshot, l: Ledger, p: nat, q: nat)
    requires Stored(rows) && s.length <= |rows| && 1 <= s.limit && p <= q <= |rows| && ToOverflow(rows, s) == rows[p..q]
    ensures Compacts(rd, rows, l, Overflowed(rd, rows, s, l), p, q, Triggered)
  {
    assert |rows[p..q]| == q - p;
    if p < q {
      CompactedIs(rd, rows, p, q, l);
    }
  }

  // Of the rows above its snapshot's watermark an overflow compacts the oldest: all that
  // are not in the window and 32 more, but at most 200 and never the last.
  lemma OverflowIs(rd: Reader, rows: seq<Row>, s: Snapshot, l: Ledger) returns (p: nat, q: nat)
    requires Stored(rows) && s.length <= |rows| && 1 <= s.limit
    ensures p <= q <= s.length
    ensures forall i :: 0 <= i < s.length ==> (p <= i <==> Beyond(rows, i, s.watermark))
    ensures var total := s.length - p;
            q - p == if total <= s.limit then 0 else Min(Min(total - 1, total - s.limit + 32), 200)
    ensures Compacts(rd, rows, l, Overflowed(rd, rows, s, l), p, q, Triggered)
  {
    p, q := OverflowSliceIs(rows, s);
    OverflowCompacts(rd, rows, s, l, p, q);
    forall i | 0 <= i < s.length ensures p <= i <==> Beyond(rows, i, s.watermark) {
      BeyondFrom(rows, s, i);
    }
  }

  lemma AdminSliceIs(rows: seq<Row>, s: Snapshot, keepRecent: nat) returns (p: nat, q: nat)
    requires Stored(rows) && s.length <= |rows|
    ensures p == From(rows, s) && p <= q <= s.length && ToCompact(rows, s, keepRecent) == rows[p..q]
    ensures q == if p + keepRecent <= s.length then s.length - keepRecent else p
  {
    SplitAt(rows, s);
    p, q := AdminSlice(rows, s, keepRecent);
    assert |Above(rows[..s.length], Mark(s.watermark))| == s.length - p;
    assert |rows[p..q]| == q - p;
  }

  // An admin compacts exactly the rows of the snapshot above its watermark that are not
  // among its last keepRecent.
  lemma AdminIs(rd: Reader, rows: seq<Row>, s: Snapshot, keepRecent: nat, l: Ledger) returns (p: nat, q: nat)
    requires Stored(rows) && s.length <= |rows|
    ensures p <= q <= s.length
    ensures forall i :: 0 <= i < s.length ==> (p <= i < q <==> Beyond(rows, i, s.watermark) && i + keepRecent < s.length)
    ensures Compacts(rd, rows, l, AfterAdmin(rd, rows, s, keepRecent, l), p, q, AdminCompacted)
  {
    p, q := AdminSliceIs(rows, s, keepRecent);
    forall i | 0 <= i < s.length ensures p <= i <==> Beyond(rows, i, s.watermark) {
      BeyondFrom(rows, s, i);
    }
    if p < q {
      CompactedIs(rd, rows, p, q, l);
    }
  }

  // A write that commits is what the ledger shows next; one that does not, nothing.
  lemma CommittedIs(rd: Reader, st: Store, a: Action)
    requires Enabled(st, a)
    ensures a.Overflow? ==> Next(rd, st, a).ledger == if a.commits then Overflowed(rd, st.rows, a.s, st.ledger) else st.ledger
    ensures a.Admin? ==> Next(rd, st, a).ledger == if a.commits then AfterAdmin(rd, st.rows, a.s, a.keepRecent, st.ledger) else st.ledger
    ensures a.Append? ==> Next(rd, st, a).ledger == st.ledger
  {
  }

  function Appended(run: seq<Action>): seq<Row> {
    if run == [] then [] else RowOf(run[0]) + Appended(run[1..])
  }

  function RowOf(a: Action): seq<Row> {
    if a.Append? then [a.row] else []
  }

  lemma RowsStep(rd: Reader, st: Store, a: Action, s: Snapshot)
    requires Enabled(st, a)
    ensures Next(rd, st, a).rows == st.rows + RowOf(a)
    ensures s in Next(rd, st, a).overflowed <==> s in st.overflowed || a == Action.Overflow(s, true)
  {
  }

  lemma RowsBoth(a: seq<Row>, b: seq<Row>, c: seq<Row>)
    ensures (a + b) + c == a + (b + c)
  {
  }

  // Over any run the transcript is what it was and the rows appended, in order.
  lemma {:induction false} RowsAppended(rd: Reader, st: Store, run: seq<Action>)
    requires Runs(rd, st, run)
    ensures End(rd, st, run).rows == st.rows + Appended(run)
    decreases |run|
  {
    if run != [] {
      var next := Next(rd, st, run[0]);
      assert next.rows == st.rows + RowOf(run[0]) by {
        RowsStep(rd, st, run[0], Snapshot(0, None, 0));
      }
      RowsAppended(rd, next, run[1..]);
      RowsBoth(st.rows, RowOf(run[0]), Appended(run[1..]));
    }
  }

  // An overflow counts as written if and only if it was and committed.
  lemma {:induction false} OverflowedIff(rd: Reader, st: Store, run: seq<Action>, s: Snapshot)
    requires Runs(rd, st, run)
    ensures s in End(rd, st, run).overflowed <==> s in st.overflowed || Action.Overflow(s, true) in run
    decreases |run|
  {
    if run != [] {
      RowsStep(rd, st, run[0], s);
      OverflowedIff(rd, Next(rd, st, run[0]), run[1..], s);
      assert Action.Overflow(s, true) in run <==> run[0] == Action.Overflow(s, true) || Action.Overflow(s, true) in run[1..];
    }
  }
}
