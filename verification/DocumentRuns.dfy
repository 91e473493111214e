/**
 Compactions, plain writes and appends in any order.

 A compaction reads a document, calls the LLM, and later compares and swaps; every
 transaction is one step.  The log has one entry for every write that landed.
 */
module DocumentRuns {
  import opened Messages
  import opened Documents
  import Archive
  import Utf8

  // seen is what the compaction had read; None for a plain write.
  datatype Write = Write(surface: Surface, before: string, after: string, seen: Option<string>)

  datatype Reading = Reading(surface: Surface, text: string)

  datatype State = State(docs: Docs, readings: map<nat, Reading>, log: seq<Write>, appended: seq<string>)

  datatype Step =
    | Look(id: nat, f: Surface)
    | Swap(id: nat, content: string)
    | Plain(f: Surface, content: string)
    | Edit(f: Surface, raw: string)
    | Append(entry: string)

  predicate Enabled(s: State, a: Step) {
    match a
    case Swap(id, _) => id in s.readings
    case Edit(f, _) => Exists(s.docs, f)
    case _ => true
  }

  function Logged(l: Limits, s: State, f: Surface, after: Docs, seen: Option<string>): State {
    State(after, s.readings, s.log + [Write(f, Read(l, s.docs, f), Read(l, after, f), seen)], s.appended)
  }

  function Next(l: Limits, s: State, a: Step): State
    requires Enabled(s, a)
  {
    match a
    case Look(id, f) => s.(readings := s.readings[id := Reading(f, Read(l, s.docs, f))])
    case Swap(id, content) =>
      var r := s.readings[id];
      if Verdict(l, s.docs, r.surface, content, Some(r.text)) == Wrote
      then Logged(l, s, r.surface, Written(l, s.docs, r.surface, content, Some(r.text)), Some(r.text))
      else s
    case Plain(f, content) =>
      if Verdict(l, s.docs, f, content, None) == Wrote
      then Logged(l, s, f, Written(l, s.docs, f, content, None), None)
      else s
    case Edit(f, raw) => Logged(l, s, f, Put(s.docs, f, raw), None)
    case Append(entry) => s.(docs := Appended(l, s.docs, entry), appended := s.appended + [entry])
  }

  ghost predicate Legal(l: Limits, s: State, run: seq<Step>)
    decreases |run|
  {
    run == [] || (Enabled(s, run[0]) && Legal(l, Next(l, s, run[0]), run[1..]))
  }

  ghost function Exec(l: Limits, s: State, run: seq<Step>): State
    requires Legal(l, s, run)
    decreases |run|
  {
    if run == [] then s else Exec(l, Next(l, s, run[0]), run[1..])
  }

  function Initial(docs: Docs): State {
    State(docs, map[], [], [])
  }

  // ---- Writes follow on one another ------------------------------------------------------

  function Latest(log: seq<Write>, f: Surface, first: string): string {
    if log == [] then first
    else if log[|log| - 1].surface == f then log[|log| - 1].after
    else Latest(log[..|log| - 1], f, first)
  }

  ghost predicate Chained(l: Limits, start: Docs, s: State) {
    && (forall f :: Latest(s.log, f, Read(l, start, f)) == Read(l, s.docs, f))
    && (forall k :: 0 <= k < |s.log| ==> s.log[k].before == Latest(s.log[..k], s.log[k].surface, Read(l, start, s.log[k].surface)))
    && (forall k :: 0 <= k < |s.log| && s.log[k].seen.Some? ==> s.log[k].seen.value == s.log[k].before)
  }

  ghost predicate ReadsStripped(l: Limits, s: State) {
    forall id :: id in s.readings ==> Strip(l.isSpace, s.readings[id].text) == s.readings[id].text
  }

  lemma LatestSnoc(log: seq<Write>, w: Write, f: Surface, first: string)
    ensures Latest(log + [w], f, first) == if w.surface == f then w.after else Latest(log, f, first)
  {
    assert (log + [w])[..|log|] == log;
  }

  lemma LoggedChained(l: Limits, start: Docs, s: State, f: Surface, after: Docs, seen: Option<string>)
    requires Chained(l, start, s) && (seen.Some? ==> seen.value == Read(l, s.docs, f))
    requires forall g :: g != f ==> Read(l, after, g) == Read(l, s.docs, g)
    ensures Chained(l, start, Logged(l, s, f, after, seen))
  {
    var t := Logged(l, s, f, after, seen);
    var w := t.log[|s.log|];
    forall g ensures Latest(t.log, g, Read(l, start, g)) == Read(l, t.docs, g) {
      LatestSnoc(s.log, w, g, Read(l, start, g));
    }
    assert forall k :: 0 <= k <= |s.log| ==> t.log[..k] == s.log[..k];
    assert s.log[..|s.log|] == s.log;
  }

  lemma OthersKept(l: Limits, s: Docs, f: Surface, text: string)
    ensures forall g :: g != f ==> Read(l, Put(s, f, text), g) == Read(l, s, g)
  {
  }

  lemma SwapChained(l: Limits, start: Docs, s: State, id: nat, content: string)
    requires Chained(l, start, s) && ReadsStripped(l, s) && id in s.readings
    ensures Chained(l, start, Next(l, s, Swap(id, content)))
  {
    var r := s.readings[id];
    if Verdict(l, s.docs, r.surface, content, Some(r.text)) == Wrote {
      OthersKept(l, s.docs, r.surface, StoredText(l.isSpace, r.surface, content));
      LoggedChained(l, start, s, r.surface, Written(l, s.docs, r.surface, content, Some(r.text)), Some(r.text));
    }
  }

  lemma StepChained(l: Limits, start: Docs, s: State, a: Step)
    requires Chained(l, start, s) && ReadsStripped(l, s) && Enabled(s, a)
    ensures Chained(l, start, Next(l, s, a)) && ReadsStripped(l, Next(l, s, a))
  {
    match a
    case Look(_, f) => NormalIsStripped(l.isSpace, f, Raw(s.docs, f));
    case Swap(id, content) => SwapChained(l, start, s, id, content);
    case Plain(f, content) =>
      OthersKept(l, s.docs, f, StoredText(l.isSpace, f, content));
      LoggedChained(l, start, s, f, Written(l, s.docs, f, content, None), None);
    case Edit(f, raw) =>
      OthersKept(l, s.docs, f, raw);
      LoggedChained(l, start, s, f, Put(s.docs, f, raw), None);
    case Append(_) =>
      assert forall g :: Read(l, Next(l, s, a).docs, g) == Read(l, s.docs, g);
  }

  lemma {:induction false} RunChained(l: Limits, start: Docs, s: State, run: seq<Step>)
    requires Chained(l, start, s) && ReadsStripped(l, s) && Legal(l, s, run)
    ensures Chained(l, start, Exec(l, s, run))
    decreases |run|
  {
    if run != [] {
      StepChained(l, start, s, run[0]);
      RunChained(l, start, Next(l, s, run[0]), run[1..]);
    }
  }

  // The last write of a document before position k of the log.
  ghost predicate Precedes(log: seq<Write>, j: nat, k: nat) {
    && j < k < |log| && log[j].surface == log[k].surface
    && forall i :: j < i < k ==> log[i].surface != log[k].surface
  }

  lemma {:induction false} LatestIs(log: seq<Write>, j: nat, n: nat, f: Surface, first: string)
    requires j < n <= |log| && log[j].surface == f && forall i :: j < i < n ==> log[i].surface != f
    ensures Latest(log[..n], f, first) == log[j].after
    decreases n
  {
    assert log[..n][..n - 1] == log[..n - 1];
    if j < n - 1 {
      LatestIs(log, j, n - 1, f, first);
    }
  }

  lemma {:induction false} LatestNone(log: seq<Write>, n: nat, f: Surface, first: string)
    requires n <= |log| && forall i :: 0 <= i < n ==> log[i].surface != f
    ensures Latest(log[..n], f, first) == first
  {
    if n > 0 {
      assert log[..n][..n - 1] == log[..n - 1];
      LatestNone(log, n - 1, f, first);
    }
  }

  // What log[k] replaced, told from the log alone.
  ghost predicate Replaced(l: Limits, docs: Docs, log: seq<Write>, k: nat)
    requires k < |log|
  {
    && (forall j: nat :: Precedes(log, j, k) ==> log[k].before == log[j].after)
    && ((forall i :: 0 <= i < k ==> log[i].surface != log[k].surface) ==> log[k].before == Read(l, docs, log[k].surface))
  }

  lemma ChainReplaces(l: Limits, docs: Docs, log: seq<Write>, k: nat)
    requires k < |log| && log[k].before == Latest(log[..k], log[k].surface, Read(l, docs, log[k].surface))
    ensures Replaced(l, docs, log, k)
  {
    var f, first := log[k].surface, Read(l, docs, log[k].surface);
    forall j: nat | Precedes(log, j, k) ensures log[k].before == log[j].after {
      LatestIs(log, j, k, f, first);
    }
    if forall i :: 0 <= i < k ==> log[i].surface != f {
      LatestNone(log, k, f, first);
    }
  }

  // No update is lost: in every interleaving, what a compaction's rewrite replaced is
  // what that compaction had read, which is what the write before it left, or what the
  // document held at the start if there was none.
  lemma NoLostUpdate(l: Limits, docs: Docs, run: seq<Step>, k: nat)
    requires Legal(l, Initial(docs), run)
    requires k < |Exec(l, Initial(docs), run).log| && Exec(l, Initial(docs), run).log[k].seen.Some?
    ensures var log := Exec(l, Initial(docs), run).log;
            log[k].seen.value == log[k].before && Replaced(l, docs, log, k)
  {
    RunChained(l, docs, Initial(docs), run);
    ChainReplaces(l, docs, Exec(l, Initial(docs), run).log, k);
  }

  lemma {:induction false} LastBefore(log: seq<Write>, j: nat, k: nat, n: nat) returns (i: nat)
    requires j < n <= k < |log| && log[j].surface == log[k].surface
    requires forall m :: n <= m < k ==> log[m].surface != log[k].surface
    ensures j <= i && Precedes(log, i, k)
    decreases n
  {
    if log[n - 1].surface == log[k].surface {
      i := n - 1;
    } else {
      i := LastBefore(log, j, k, n - 1);
    }
  }

  // Two compactions that read the same text of a document both rewrite it only if the
  // first of them, or a write between them, left that very text again.
  lemma OneOfTwo(l: Limits, docs: Docs, run: seq<Step>, j: nat, k: nat)
    requires Legal(l, Initial(docs), run)
    requires var log := Exec(l, Initial(docs), run).log;
             j < k < |log| && log[j].surface == log[k].surface && log[j].seen.Some? && log[k].seen == log[j].seen
    ensures var log := Exec(l, Initial(docs), run).log;
            exists i :: j <= i < k && log[i].surface == log[k].surface && log[i].after == log[j].before
  {
    var log := Exec(l, Initial(docs), run).log;
    NoLostUpdate(l, docs, run, j);
    NoLostUpdate(l, docs, run, k);
    var i := LastBefore(log, j, k, k);
    assert log[i].surface == log[k].surface && log[i].after == log[j].before;
  }

  // ---- Appends survive ---------------------------------------------------------------------

  lemma ArchivedSnoc(l: Limits, entries: seq<string>, e: string)
    ensures Archive.Archived(l.isDigit, entries + [e], l.history) ==
      Archive.Windowed(l.isDigit, Archive.Separated(Archive.Archived(l.isDigit, entries, l.history)) + Archive.Ended(e), l.history)
  {
    assert (entries + [e])[..|entries|] == entries;
  }

  ghost predicate HistoryKept(l: Limits, s: State) {
    HistoryText(s.docs) == Archive.Archived(l.isDigit, s.appended, l.history)
  }

  lemma {:induction false} RunHistory(l: Limits, s: State, run: seq<Step>)
    requires HistoryKept(l, s) && Legal(l, s, run)
    ensures HistoryKept(l, Exec(l, s, run))
    decreases |run|
  {
    if run != [] {
      StepHistory(l, s, run[0]);
      RunHistory(l, Next(l, s, run[0]), run[1..]);
    }
  }

  lemma StepHistory(l: Limits, s: State, a: Step)
    requires HistoryKept(l, s) && Enabled(s, a)
    ensures HistoryKept(l, Next(l, s, a))
  {
    if a.Append? {
      ArchivedSnoc(l, s.appended, a.entry);
    } else {
      assert HistoryText(Next(l, s, a).docs) == HistoryText(s.docs);
    }
  }

  // Whatever else is written, the history is at all times the newest of the appended
  // entries that fit, each in full and in the order they were appended.
  lemma EveryAppendSurvives(l: Limits, docs: Docs, run: seq<Step>)
    requires !l.isDigit('\n') && HistoryText(docs) == "" && Legal(l, Initial(docs), run)
    requires var es := Archive.AllEnded(Exec(l, Initial(docs), run).appended);
             Archive.Entries(l.isDigit, es) && forall i :: 0 <= i < |es| ==> Utf8.Size(es[i]) <= l.history
    ensures var s := Exec(l, Initial(docs), run);
            HistoryText(s.docs) == Archive.Concat(Archive.LongestFit(Archive.AllEnded(s.appended), l.history))
  {
    RunHistory(l, Initial(docs), run);
    Archive.ArchiveIsWindow(l.isDigit, Exec(l, Initial(docs), run).appended, l.history);
  }

  // The condition under which the text appended next is kept in full.
  ghost predicate FitsBehind(l: Limits, history: string, e: string) {
    && Utf8.Size(e) <= l.history
    && (Archive.HeadAt(l.isDigit, e, 0) || Archive.Single(l.isDigit, e) ||
        Utf8.Size(Archive.LastEntry(l.isDigit, Archive.Separated(history)) + e) <= l.history)
  }

  // Whatever the history held and whatever is appended: the history ends with the
  // new entry in full exactly when it fits and starts with a head, or has none further
  // on, or fits with the entry it continues.
  lemma NewestAppendSurvives(l: Limits, docs: Docs, entry: string)
    requires !l.isDigit('\n') && 1 <= l.history
    ensures Archive.EndsWith(HistoryText(Appended(l, docs, entry)), Archive.Ended(entry)) <==>
      FitsBehind(l, HistoryText(docs), Archive.Ended(entry))
  {
    Archive.NewestSurvives(l.isDigit, HistoryText(docs), entry, l.history);
  }

  // ---- A compaction that is left alone lands ------------------------------------------------

  // A write to f, or a new reading under the same id.
  predicate Disturbs(s: State, a: Step, id: nat, f: Surface) {
    match a
    case Look(other, _) => other == id
    case Swap(other, _) => other in s.readings && s.readings[other].surface == f
    case Plain(g, _) => g == f
    case Edit(g, _) => g == f
    case Append(_) => false
  }

  ghost predicate Undisturbed(l: Limits, s: State, run: seq<Step>, id: nat, f: Surface)
    requires Legal(l, s, run)
    decreases |run|
  {
    run != [] ==> !Disturbs(s, run[0], id, f) && Undisturbed(l, Next(l, s, run[0]), run[1..], id, f)
  }

  predicate StillRead(l: Limits, s: State, id: nat, f: Surface) {
    id in s.readings && s.readings[id] == Reading(f, Read(l, s.docs, f))
  }

  lemma StepUndisturbed(l: Limits, s: State, a: Step, id: nat, f: Surface)
    requires StillRead(l, s, id, f) && Enabled(s, a) && !Disturbs(s, a, id, f)
    ensures StillRead(l, Next(l, s, a), id, f)
  {
    match a
    case Look(_, _) =>
    case Swap(other, content) =>
      OthersKept(l, s.docs, s.readings[other].surface, StoredText(l.isSpace, s.readings[other].surface, content));
    case Plain(g, content) => OthersKept(l, s.docs, g, StoredText(l.isSpace, g, content));
    case Edit(g, raw) => OthersKept(l, s.docs, g, raw);
    case Append(_) =>
  }

  lemma {:induction false} RunUndisturbed(l: Limits, s: State, run: seq<Step>, id: nat, f: Surface)
    requires StillRead(l, s, id, f) && Legal(l, s, run) && Undisturbed(l, s, run, id, f)
    ensures StillRead(l, Exec(l, s, run), id, f)
    decreases |run|
  {
    if run != [] {
      StepUndisturbed(l, s, run[0], id, f);
      RunUndisturbed(l, Next(l, s, run[0]), run[1..], id, f);
    }
  }

  // A compaction between whose reading and rewriting nothing wrote the document rewrites
  // it, unless the text is too long or has no row; its write is logged as such.
  lemma QuietCompactionLands(l: Limits, s: State, id: nat, f: Surface, run: seq<Step>, content: string)
    requires Legal(l, Next(l, s, Look(id, f)), run) && Undisturbed(l, Next(l, s, Look(id, f)), run, id, f)
    ensures var t := Exec(l, Next(l, s, Look(id, f)), run); var fits := Utf8.Size(StoredText(l.isSpace, f, content)) <= l.rewrite(f);
            && Enabled(t, Swap(id, content))
            && var u := Next(l, t, Swap(id, content));
               if fits && (f == Memory || t.docs.user.Some?) then
                 && Raw(u.docs, f) == StoredText(l.isSpace, f, content) && |u.log| == |t.log| + 1
                 && u.log[|t.log|].surface == f && u.log[|t.log|].seen == Some(Read(l, s.docs, f))
               else u == t
  {
    var t := Exec(l, Next(l, s, Look(id, f)), run);
    RunUndisturbed(l, Next(l, s, Look(id, f)), run, id, f);
    ReadingStays(l, Next(l, s, Look(id, f)), run, id, f);
    QuietReadLands(l, t.docs, f, content);
    LandsIff(l, t.docs, f, content, None);
  }

  lemma {:induction false} ReadingStays(l: Limits, s: State, run: seq<Step>, id: nat, f: Surface)
    requires id in s.readings && Legal(l, s, run) && Undisturbed(l, s, run, id, f)
    ensures id in Exec(l, s, run).readings && Exec(l, s, run).readings[id] == s.readings[id]
    decreases |run|
  {
    if run != [] {
      ReadingStays(l, Next(l, s, run[0]), run[1..], id, f);
    }
  }

  // A rewrite whose document was written since it was read and no longer reads the same
  // changes nothing, and neither does one that is too long.
  lemma StaleCompactionLeaves(l: Limits, s: State, id: nat, content: string)
    requires id in s.readings && Strip(l.isSpace, s.readings[id].text) != Read(l, s.docs, s.readings[id].surface)
    ensures Next(l, s, Swap(id, content)) == s
  {
    LandsIff(l, s.docs, s.readings[id].surface, content, Some(s.readings[id].text));
  }

  // A plain write lands exactly when it fits and has its row, whatever it replaces.
  lemma PlainLandsIff(l: Limits, s: State, f: Surface, content: string)
    ensures var u := Next(l, s, Plain(f, content));
            if Utf8.Size(StoredText(l.isSpace, f, content)) <= l.rewrite(f) && (f == Memory || s.docs.user.Some?)
            then Raw(u.docs, f) == StoredText(l.isSpace, f, content) && |u.log| == |s.log| + 1 && u.log[|s.log|].seen == None
            else u == s
  {
    LandsIff(l, s.docs, f, content, None);
  }
}
