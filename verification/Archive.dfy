/**
 The history archive: entries that start with a dated head, appended to a text whose
 oldest entries are dropped when it outgrows its budget.

 d tells the characters that count as digits.
 */
module Archive {
  import opened Utf8

  const HEAD_LENGTH := 11

  predicate DatedAt(d: char -> bool, t: string, i: nat) {
    && i + HEAD_LENGTH <= |t| && t[i] == '['
    && d(t[i + 1]) && d(t[i + 2]) && d(t[i + 3]) && d(t[i + 4]) && t[i + 5] == '-'
    && d(t[i + 6]) && d(t[i + 7]) && t[i + 8] == '-' && d(t[i + 9]) && d(t[i + 10])
  }

  // A dated head at the start of a line.
  predicate HeadAt(d: char -> bool, t: string, i: nat) {
    DatedAt(d, t, i) && (i == 0 || t[i - 1] == '\n')
  }

  // Where the first entry ends, looking from position j on.
  function Cut(d: char -> bool, t: string, j: nat): (k: nat)
    requires j <= |t|
    ensures j <= k <= |t| && (k < |t| ==> HeadAt(d, t, k))
    ensures forall i :: j <= i < k ==> !HeadAt(d, t, i)
    decreases |t| - j
  {
    if j == |t| || HeadAt(d, t, j) then j else Cut(d, t, j + 1)
  }

  function Split(d: char -> bool, t: string): seq<string>
    decreases |t|
  {
    if t == "" then [] else [t[..Cut(d, t, 1)]] + Split(d, t[Cut(d, t, 1)..])
  }

  function Concat(es: seq<string>): string {
    if es == [] then "" else es[0] + Concat(es[1..])
  }

  // Splitting loses nothing.
  lemma {:induction false} SplitConcat(d: char -> bool, t: string)
    ensures Concat(Split(d, t)) == t
    decreases |t|
  {
    if t != "" {
      var k := Cut(d, t, 1);
      SplitConcat(d, t[k..]);
      ConcatCons(t[..k], Split(d, t[k..]));
      assert t == t[..k] + t[k..];
    }
  }

  lemma ConcatCons(e: string, es: seq<string>)
    ensures Concat([e] + es) == e + Concat(es)
  {
    assert ([e] + es)[1..] == es;
  }

  // Heads do not overlap, so searching on after a match finds all of them.
  lemma HeadsApart(d: char -> bool, t: string, i: nat, j: nat)
    requires !d('\n') && HeadAt(d, t, i) && HeadAt(d, t, j) && i < j
    ensures i + HEAD_LENGTH < j
  {
  }

  // ---- Entries -------------------------------------------------------------------------

  predicate Ends(t: string) {
    t != "" && t[|t| - 1] == '\n'
  }

  // A text with no entry head after its start.
  ghost predicate Single(d: char -> bool, t: string) {
    t != "" && forall i :: 0 < i < |t| ==> !HeadAt(d, t, i)
  }

  ghost predicate IsEntry(d: char -> bool, e: string) {
    HeadAt(d, e, 0) && Single(d, e) && Ends(e)
  }

  ghost predicate Entries(d: char -> bool, es: seq<string>) {
    forall i :: 0 <= i < |es| ==> IsEntry(d, es[i])
  }

  // No head straddles the end of an entry.
  lemma NoHeadInside(d: char -> bool, a: string, b: string, i: nat)
    requires !d('\n') && Single(d, a) && Ends(a) && 0 < i < |a|
    ensures !HeadAt(d, a + b, i)
  {
    var t := a + b;
    if DatedAt(d, t, i) && i + HEAD_LENGTH <= |a| {
      assert !HeadAt(d, a, i);
      assert forall k :: i - 1 <= k < i + HEAD_LENGTH ==> t[k] == a[k];
    } else {
      assert t[|a| - 1] == '\n';
    }
  }

  lemma HeadBehind(d: char -> bool, a: string, b: string)
    requires Ends(a) && HeadAt(d, b, 0)
    ensures HeadAt(d, a + b, |a|)
  {
    assert forall k :: 0 <= k < |b| ==> (a + b)[|a| + k] == b[k];
  }

  lemma CutAtEntry(d: char -> bool, a: string, b: string, j: nat)
    requires !d('\n') && Single(d, a) && Ends(a) && (b == "" || HeadAt(d, b, 0)) && 1 <= j <= |a|
    ensures Cut(d, a + b, j) == |a|
    decreases |a| - j
  {
    if j < |a| {
      NoHeadInside(d, a, b, j);
      CutAtEntry(d, a, b, j + 1);
    } else if b != "" {
      HeadBehind(d, a, b);
    }
  }

  lemma SplitEntry(d: char -> bool, a: string, b: string)
    requires !d('\n') && Single(d, a) && Ends(a) && (b == "" || HeadAt(d, b, 0))
    ensures Split(d, a + b) == [a] + Split(d, b)
  {
    CutAtEntry(d, a, b, 1);
    assert (a + b)[..|a|] == a && (a + b)[|a|..] == b;
  }

  lemma ConcatHead(d: char -> bool, es: seq<string>)
    requires Entries(d, es)
    ensures Concat(es) == "" || HeadAt(d, Concat(es), 0)
  {
    if es != [] {
      assert IsEntry(d, es[0]);
      assert forall k :: 0 <= k < |es[0]| ==> Concat(es)[k] == es[0][k];
    }
  }

  // Splitting undoes the concatenation of entries.
  lemma {:induction false} SplitEntries(d: char -> bool, es: seq<string>)
    requires !d('\n') && Entries(d, es)
    ensures Split(d, Concat(es)) == es
  {
    if es != [] {
      SplitEntries(d, es[1..]);
      ConcatHead(d, es[1..]);
      assert IsEntry(d, es[0]);
      SplitEntry(d, es[0], Concat(es[1..]));
    }
  }

  // ---- The window -----------------------------------------------------------------------

  // What dropping the oldest entries leaves; the last one stays whatever its size.
  function Kept(es: seq<string>, budget: nat): seq<string> {
    if |es| <= 1 || Size(Concat(es)) <= budget then es else Kept(es[1..], budget)
  }

  function Windowed(d: char -> bool, text: string, budget: nat): string {
    if Size(text) <= budget then text
    else
      var rest := Concat(Kept(Split(d, text), budget));
      if Size(rest) <= budget || budget == 0 then rest else Fitting(rest, budget)
  }

  function Separated(current: string): string {
    if current != "" && !Ends(current) then current + "\n" else current
  }

  function Ended(entry: string): string {
    if !Ends(entry) then entry + "\n" else entry
  }

  method SplitHistoryEntries(d: char -> bool, text: string) returns (entries: seq<string>)
    ensures entries == Split(d, text)
  {
    var starts: seq<nat> := [];
    for i := 0 to |text|
      invariant forall k :: 0 <= k < |starts| ==> starts[k] < i && HeadAt(d, text, starts[k])
      invariant forall k, l :: 0 <= k < l < |starts| ==> starts[k] < starts[l]
      invariant forall j :: 0 <= j < i && HeadAt(d, text, j) ==> j in starts
    {
      if HeadAt(d, text, i) {
        starts := starts + [i];
      }
    }
    if text == "" {
      return [];
    }
    if starts != [] && starts[0] == 0 {
      starts := starts[1..];
    }
    entries := Slices(d, text, starts);
  }

  // cuts are the heads of text behind its start.
  ghost predicate AreCuts(d: char -> bool, text: string, cuts: seq<nat>) {
    && (forall k :: 0 <= k < |cuts| ==> 0 < cuts[k] < |text| && HeadAt(d, text, cuts[k]))
    && (forall k, l :: 0 <= k < l < |cuts| ==> cuts[k] < cuts[l])
    && (forall j :: 0 < j < |text| && HeadAt(d, text, j) ==> j in cuts)
  }

  method Slices(d: char -> bool, text: string, cuts: seq<nat>) returns (entries: seq<string>)
    requires text != "" && AreCuts(d, text, cuts)
    ensures entries == Split(d, text)
  {
    entries := [];
    var from := 0;
    assert text[0..] == text;
    for k := 0 to |cuts|
      invariant from == (if k == 0 then 0 else cuts[k - 1]) && from < |text|
      invariant entries + Split(d, text[from..]) == Split(d, text)
    {
      NextCut(d, text, cuts, k, from);
      MoveOne(entries, text[from..cuts[k]], Split(d, text[cuts[k]..]), Split(d, text));
      entries := entries + [text[from..cuts[k]]];
      from := cuts[k];
    }
    NextCut(d, text, cuts, |cuts|, from);
    MoveOne(entries, text[from..|text|], Split(d, text[|text|..]), Split(d, text));
    entries := entries + [text[from..|text|]];
    LastSlice(d, text, entries);
  }

  lemma MoveOne(a: seq<string>, p: string, rest: seq<string>, all: seq<string>)
    requires a + ([p] + rest) == all
    ensures (a + [p]) + rest == all
  {
    assert (a + [p]) + rest == a + ([p] + rest);
  }

  lemma LastSlice(d: char -> bool, text: string, a: seq<string>)
    ensures a + Split(d, text[|text|..]) == a
  {
    assert text[|text|..] == "" && Split(d, "") == [];
  }

  // A head in a suffix is a head of the text.
  lemma HeadInSuffix(d: char -> bool, text: string, from: nat, j: nat)
    requires from + j < |text| && 0 < j
    ensures HeadAt(d, text[from..], j) <==> HeadAt(d, text, from + j)
  {
    assert forall k :: 0 <= k < |text| - from ==> text[from..][k] == text[from + k];
  }

  lemma CutIs(d: char -> bool, t: string, k: nat)
    requires 1 <= k <= |t| && (k < |t| ==> HeadAt(d, t, k)) && forall i :: 1 <= i < k ==> !HeadAt(d, t, i)
    ensures Cut(d, t, 1) == k
  {
  }

  function CutAfter(text: string, cuts: seq<nat>, k: nat): nat {
    if k < |cuts| then cuts[k] else |text|
  }

  lemma NoneBetween(d: char -> bool, text: string, cuts: seq<nat>, k: nat, j: nat)
    requires AreCuts(d, text, cuts) && k <= |cuts| && (if k == 0 then 0 else cuts[k - 1]) < j < CutAfter(text, cuts, k) && j < |text|
    ensures !HeadAt(d, text, j)
  {
    assert j !in cuts by {
      forall l | 0 <= l < |cuts| ensures cuts[l] != j {
        if l < k {
          assert cuts[l] <= cuts[k - 1];
        } else {
          assert cuts[k] <= cuts[l];
        }
      }
    }
  }

  lemma NextCut(d: char -> bool, text: string, cuts: seq<nat>, k: nat, from: nat)
    requires AreCuts(d, text, cuts) && k <= |cuts| && from == (if k == 0 then 0 else cuts[k - 1]) && from < |text|
    ensures var to := if k < |cuts| then cuts[k] else |text|;
            from < to <= |text| && Split(d, text[from..]) == [text[from..to]] + Split(d, text[to..])
  {
    var to, t := CutAfter(text, cuts, k), text[from..];
    assert from < to <= |text|;
    forall j | 1 <= j < to - from ensures !HeadAt(d, t, j) {
      NoneBetween(d, text, cuts, k, from + j);
      HeadInSuffix(d, text, from, j);
    }
    if to < |text| {
      HeadInSuffix(d, text, from, to - from);
    }
    CutIs(d, t, to - from);
    assert t[..to - from] == text[from..to] && t[to - from..] == text[to..];
  }

  method DropOldest(all: seq<string>, budget: nat) returns (entries: seq<string>)
    ensures entries == Kept(all, budget)
  {
    entries := all;
    while |entries| > 1 && Size(Concat(entries)) > budget
      invariant Kept(entries, budget) == Kept(all, budget)
    {
      entries := entries[1..];
    }
  }

  method AppendWithWindow(d: char -> bool, current: string, entry: string, budget: nat) returns (result: string)
    requires !d('\n')
    ensures result == Windowed(d, Separated(current) + Ended(entry), budget)
  {
    var base, added := current, entry;
    if base != "" && !Ends(base) {
      base := base + "\n";
    }
    if !Ends(added) {
      added := added + "\n";
    }
    var text := base + added;
    if Size(text) <= budget {
      return text;
    }
    var entries := SplitHistoryEntries(d, text);
    entries := DropOldest(entries, budget);
    var rebuilt := Concat(entries);
    if Size(rebuilt) <= budget {
      return rebuilt;
    }
    KeptEnds(d, text, budget);
    result := ByteTail(rebuilt, budget);
  }

  // bs[-n:] in Python, where -0 is 0.
  function FromEnd(bs: seq<Byte>, n: nat): seq<Byte> {
    if n == 0 || |bs| <= n then bs else bs[|bs| - n..]
  }

  // The fallback for a single entry that is too long.
  method ByteTail(rebuilt: string, budget: nat) returns (tail: string)
    requires Ends(rebuilt) && Size(rebuilt) > budget
    ensures tail == if budget == 0 then rebuilt else Fitting(rebuilt, budget)
  {
    tail := DecodeIgnoring(FromEnd(Encode(rebuilt), budget));
    TailText(rebuilt, budget);
    if tail != "" && !Ends(tail) {
      tail := tail + "\n";
    }
  }

  lemma TailText(rebuilt: string, budget: nat)
    requires Ends(rebuilt) && Size(rebuilt) > budget
    ensures Ends(DecodeIgnoring(FromEnd(Encode(rebuilt), budget)))
    ensures DecodeIgnoring(FromEnd(Encode(rebuilt), budget)) == if budget == 0 then rebuilt else Fitting(rebuilt, budget)
  {
    if budget == 0 {
      RoundTrip(rebuilt);
    } else {
      TailIsLongestSuffix(rebuilt, budget);
      FittingEnds(rebuilt, budget);
    }
  }

  // ---- What the window guarantees -----------------------------------------------------------

  lemma {:induction false} KeptSuffix(es: seq<string>, budget: nat) returns (n: nat)
    ensures n <= |es| && Kept(es, budget) == es[n..] && (es != [] ==> n < |es|)
    decreases |es|
  {
    if |es| <= 1 || Size(Concat(es)) <= budget {
      n := 0;
    } else {
      n := KeptSuffix(es[1..], budget);
      n := n + 1;
    }
  }

  lemma {:induction false} ConcatSuffix(es: seq<string>, n: nat) returns (k: nat)
    requires n <= |es|
    ensures k <= |Concat(es)| && Concat(es[n..]) == Concat(es)[k..]
    ensures n < |es| && es[|es| - 1] != "" ==> k < |Concat(es)|
    decreases |es|
  {
    if n == 0 {
      k := 0;
      assert es[0..] == es && Concat(es)[0..] == Concat(es);
      if es != [] && es[|es| - 1] != "" {
        NotEmpty(es);
      }
    } else {
      k := ConcatSuffix(es[1..], n - 1);
      assert es[1..][n - 1..] == es[n..];
      assert Concat(es)[|es[0]| + k..] == Concat(es[1..])[k..];
      k := |es[0]| + k;
    }
  }

  lemma {:induction false} NotEmpty(es: seq<string>)
    requires es != [] && es[|es| - 1] != ""
    ensures Concat(es) != ""
  {
    if |es| > 1 {
      NotEmpty(es[1..]);
    }
  }

  lemma {:induction false} PiecesNotEmpty(d: char -> bool, t: string)
    ensures forall i :: 0 <= i < |Split(d, t)| ==> Split(d, t)[i] != ""
    ensures t != "" ==> Split(d, t) != []
    decreases |t|
  {
    if t != "" {
      PiecesNotEmpty(d, t[Cut(d, t, 1)..]);
    }
  }

  // What is kept is the text from some position on, and not nothing.
  lemma KeptIsSuffix(d: char -> bool, text: string, budget: nat) returns (k: nat)
    requires text != ""
    ensures k < |text| && Concat(Kept(Split(d, text), budget)) == text[k..]
  {
    var es := Split(d, text);
    SplitConcat(d, text);
    PiecesNotEmpty(d, text);
    var n := KeptSuffix(es, budget);
    k := ConcatSuffix(es, n);
  }

  lemma KeptEnds(d: char -> bool, text: string, budget: nat)
    requires Ends(text)
    ensures Ends(Concat(Kept(Split(d, text), budget)))
  {
    var k := KeptIsSuffix(d, text, budget);
  }

  lemma LineSize(t: string)
    requires Ends(t)
    ensures Size(t[|t| - 1..]) == 1
  {
    assert t[|t| - 1..] == "\n" && Encode("") == [] && "\n"[1..] == "";
  }

  lemma FittingEnds(t: string, budget: nat)
    requires Ends(t) && 1 <= budget
    ensures Ends(Fitting(t, budget)) && Size(Fitting(t, budget)) <= budget && |Fitting(t, budget)| <= |t|
    ensures Fitting(t, budget) == t[|t| - |Fitting(t, budget)|..]
  {
    LineSize(t);
    FittingIsLongest(t, budget, |t| - 1);
  }

  // For every budget of at least 1 the archive stays within it, ends with a newline
  // and is a suffix of what was to be written.
  lemma WindowBounds(d: char -> bool, text: string, budget: nat) returns (k: nat)
    requires Ends(text) && 1 <= budget
    ensures Size(Windowed(d, text, budget)) <= budget && Ends(Windowed(d, text, budget))
    ensures k < |text| && Windowed(d, text, budget) == text[k..]
  {
    if Size(text) <= budget {
      k := 0;
    } else {
      k := KeptIsSuffix(d, text, budget);
      if Size(text[k..]) > budget {
        k := FittingIsSuffix(text, k, budget);
      }
    }
  }

  // What an append writes: the archive and the entry, each with one newline behind it if
  // it is not there already, an empty archive left out, and of this the front cut off.
  lemma AppendWrites(d: char -> bool, current: string, entry: string, budget: nat) returns (base: string, e: string, k: nat)
    requires 1 <= budget
    ensures base == (if current == "" || current[|current| - 1] == '\n' then current else current + "\n")
    ensures e == (if entry != "" && entry[|entry| - 1] == '\n' then entry else entry + "\n")
    ensures k < |base + e| && Windowed(d, Separated(current) + Ended(entry), budget) == (base + e)[k..]
    ensures Size(base + e) <= budget ==> k == 0
  {
    base, e := Separated(current), Ended(entry);
    k := WindowOf(d, base + e, budget);
  }

  lemma WindowOf(d: char -> bool, text: string, budget: nat) returns (k: nat)
    requires Ends(text) && 1 <= budget
    ensures k < |text| && Windowed(d, text, budget) == text[k..] && (Size(text) <= budget ==> k == 0)
  {
    k := WindowBounds(d, text, budget);
    if Size(text) <= budget {
      k := 0;
    }
  }

  lemma FittingIsSuffix(text: string, j: nat, budget: nat) returns (k: nat)
    requires Ends(text) && j < |text| && 1 <= budget
    ensures k < |text| && Fitting(text[j..], budget) == text[k..] && Size(text[k..]) <= budget && Ends(text[k..])
  {
    var rest := text[j..];
    FittingEnds(rest, budget);
    k := |text| - |Fitting(rest, budget)|;
    assert rest[|rest| - |Fitting(rest, budget)|..] == text[k..];
  }

  // A budget of 0 is not kept, and is the only one.
  lemma BudgetKept(d: char -> bool, text: string, budget: nat)
    requires Ends(text)
    ensures Size(Windowed(d, text, budget)) <= budget <==> 1 <= budget
  {
    if 1 <= budget {
      var _ := WindowBounds(d, text, budget);
    } else {
      var k := KeptIsSuffix(d, text, budget);
      SizePositive(text[k..]);
      SizePositive(text);
    }
  }

  lemma SizePositive(t: string)
    requires t != ""
    ensures Size(t) > 0
  {
  }

  // ---- Over any sequence of appends ------------------------------------------------------------

  // The longest suffix of the entries that fits.
  function LongestFit(es: seq<string>, budget: nat): seq<string> {
    if Size(Concat(es)) <= budget then es else LongestFit(es[1..], budget)
  }

  // Nothing longer fits.
  lemma {:induction false} LongestFitIsLongest(es: seq<string>, budget: nat, n: nat)
    requires n <= |es| && Size(Concat(es[n..])) <= budget
    ensures Size(Concat(LongestFit(es, budget))) <= budget && |es| - n <= |LongestFit(es, budget)| <= |es|
    ensures LongestFit(es, budget) == es[|es| - |LongestFit(es, budget)|..]
    decreases |es|
  {
    if Size(Concat(es)) > budget {
      assert n > 0 by {
        assert es[0..] == es;
      }
      assert es[1..][n - 1..] == es[n..];
      LongestFitIsLongest(es[1..], budget, n - 1);
      var f := LongestFit(es[1..], budget);
      assert es[1..][|es| - 1 - |f|..] == es[|es| - |f|..];
    }
  }

  lemma {:induction false} ConcatSnoc(es: seq<string>, e: string)
    ensures Concat(es + [e]) == Concat(es) + e && Size(Concat(es + [e])) == Size(Concat(es)) + Size(e)
  {
    if es == [] {
      assert [e][1..] == [] && Concat([]) == "" && Concat([e]) == e + "";
      assert [] + [e] == [e];
    } else {
      ConcatSnoc(es[1..], e);
      assert (es + [e])[1..] == es[1..] + [e];
      assert es[0] + (Concat(es[1..]) + e) == (es[0] + Concat(es[1..])) + e;
    }
    EncodeConcat(Concat(es), e);
  }

  // Dropping while appending drops what dropping at the end would.
  lemma {:induction false} FitThenAppend(es: seq<string>, e: string, budget: nat)
    requires Size(e) <= budget
    ensures LongestFit(LongestFit(es, budget) + [e], budget) == LongestFit(es + [e], budget)
  {
    if Size(Concat(es)) > budget {
      ConcatSnoc(es, e);
      FitThenAppend(es[1..], e, budget);
      assert (es + [e])[1..] == es[1..] + [e];
    }
  }

  lemma {:induction false} KeptIsLongestFit(es: seq<string>, budget: nat)
    requires es != [] && Size(es[|es| - 1]) <= budget
    ensures Kept(es, budget) == LongestFit(es, budget) && Size(Concat(Kept(es, budget))) <= budget
    decreases |es|
  {
    if |es| == 1 {
      assert Concat(es) == es[0] + "";
      assert es[0] + "" == es[0];
    } else if Size(Concat(es)) > budget {
      KeptIsLongestFit(es[1..], budget);
    }
  }

  // A text of entries is windowed to its longest suffix of entries that fits.
  lemma WindowedEntries(d: char -> bool, es: seq<string>, budget: nat)
    requires !d('\n') && Entries(d, es) && es != [] && Size(es[|es| - 1]) <= budget
    ensures Windowed(d, Concat(es), budget) == Concat(LongestFit(es, budget))
  {
    SplitEntries(d, es);
    KeptIsLongestFit(es, budget);
  }

  // The archive after appending entries one by one to an empty one.
  function Archived(d: char -> bool, entries: seq<string>, budget: nat): string {
    if entries == [] then ""
    else Windowed(d, Separated(Archived(d, entries[..|entries| - 1], budget)) + Ended(entries[|entries| - 1]), budget)
  }

  function AllEnded(entries: seq<string>): seq<string> {
    if entries == [] then [] else AllEnded(entries[..|entries| - 1]) + [Ended(entries[|entries| - 1])]
  }

  lemma {:induction false} ConcatEnds(d: char -> bool, es: seq<string>)
    requires Entries(d, es)
    ensures Concat(es) == "" || Ends(Concat(es))
  {
    if es != [] {
      assert IsEntry(d, es[0]);
      ConcatEnds(d, es[1..]);
    }
  }

  lemma FitEntries(d: char -> bool, es: seq<string>, budget: nat)
    requires Entries(d, es)
    ensures Entries(d, LongestFit(es, budget))
  {
    assert es[|es|..] == [] && Concat([]) == "" && Size("") == 0;
    LongestFitIsLongest(es, budget, |es|);
  }

  lemma AppendEntry(d: char -> bool, kept: seq<string>, e: string, budget: nat)
    requires !d('\n') && Entries(d, kept) && IsEntry(d, e) && Size(e) <= budget
    ensures Windowed(d, Separated(Concat(kept)) + e, budget) == Concat(LongestFit(kept + [e], budget))
  {
    ConcatEnds(d, kept);
    ConcatSnoc(kept, e);
    WindowedEntries(d, kept + [e], budget);
  }

  // For entries with one dated head that each fit, the archive is at all times the
  // longest suffix of everything ever appended that fits.
  lemma {:induction false} ArchiveIsWindow(d: char -> bool, entries: seq<string>, budget: nat)
    requires !d('\n') && Entries(d, AllEnded(entries))
    requires forall i :: 0 <= i < |AllEnded(entries)| ==> Size(AllEnded(entries)[i]) <= budget
    ensures Archived(d, entries, budget) == Concat(LongestFit(AllEnded(entries), budget))
  {
    if entries != [] {
      var before, e := entries[..|entries| - 1], Ended(entries[|entries| - 1]);
      var es := AllEnded(before);
      assert AllEnded(entries) == es + [e];
      assert AllEnded(entries)[|es|] == e;
      forall i | 0 <= i < |es| ensures IsEntry(d, es[i]) && Size(es[i]) <= budget {
        assert AllEnded(entries)[i] == es[i];
      }
      ArchiveIsWindow(d, before, budget);
      FitEntries(d, es, budget);
      AppendEntry(d, LongestFit(es, budget), e, budget);
      FitThenAppend(es, e, budget);
    }
  }

  // ---- Reading into the prompt -------------------------------------------------------------------

  function Injected(content: string, budget: nat, marker: string): string {
    if Size(content) <= budget then content
    else if Size(marker) < budget then marker + Fitting(content, budget - Size(marker))
    else marker + content
  }

  method TruncateForInjection(content: string, budget: nat, marker: string) returns (result: string)
    ensures result == Injected(content, budget, marker)
  {
    var encoded := Encode(content);
    if |encoded| <= budget {
      return content;
    }
    var keep := if budget < Size(marker) then 0 else budget - Size(marker);
    if keep == 0 {
      RoundTrip(content);
    } else {
      TailIsLongestSuffix(content, keep);
    }
    result := marker + DecodeIgnoring(FromEnd(encoded, keep));
  }

  // What is read into the prompt keeps the budget exactly when it did before or the
  // budget leaves room behind the marker.
  lemma InjectedFits(content: string, budget: nat, marker: string)
    ensures Size(Injected(content, budget, marker)) <= budget <==> Size(content) <= budget || Size(marker) < budget
  {
    if Size(content) > budget {
      if Size(marker) < budget {
        assert content[|content|..] == "" && Size("") == 0;
        FittingIsLongest(content, budget - Size(marker), |content|);
        EncodeConcat(marker, Fitting(content, budget - Size(marker)));
      } else {
        EncodeConcat(marker, content);
      }
    }
  }

  // ---- Whether the newest append survives ----------------------------------------------------------

  predicate EndsWith(t: string, e: string) {
    |e| <= |t| && t[|t| - |e|..] == e
  }

  // Where the last entry of the first n characters starts.
  function LastHead(d: char -> bool, t: string, n: nat): (i: nat)
    requires n <= |t|
    ensures i <= n && (i == 0 || (i < n && HeadAt(d, t, i)))
    ensures forall j :: i < j < n ==> !HeadAt(d, t, j)
  {
    if n == 0 then 0 else if HeadAt(d, t, n - 1) then n - 1 else LastHead(d, t, n - 1)
  }

  function LastEntry(d: char -> bool, t: string): string {
    t[LastHead(d, t, |t|)..]
  }

  predicate EntryAt(d: char -> bool, t: string, k: nat) {
    k < |t| && (k == 0 || HeadAt(d, t, k))
  }

  // No entry that starts before k is small enough to end the text with.
  ghost predicate TooLongBefore(d: char -> bool, t: string, budget: nat, k: nat)
    requires k <= |t|
  {
    forall j :: 0 <= j < k && EntryAt(d, t, j) ==> Size(t[j..]) > budget
  }

  // What is kept starts at the first entry from which the text fits, or at the last
  // entry if none does.
  ghost predicate KeptFrom(d: char -> bool, t: string, budget: nat, k: nat) {
    && EntryAt(d, t, k) && TooLongBefore(d, t, budget, k)
    && (Size(t[k..]) <= budget || forall j :: k < j < |t| ==> !HeadAt(d, t, j))
  }

  // The window of the text from entry i on.
  function WindowFrom(d: char -> bool, t: string, budget: nat, i: nat): (k: nat)
    requires EntryAt(d, t, i)
    ensures i <= k && EntryAt(d, t, k)
    decreases |t| - i
  {
    var c := Cut(d, t, i + 1);
    if Size(t[i..]) <= budget || c == |t| then i else WindowFrom(d, t, budget, c)
  }

  lemma {:induction false} WindowPasses(d: char -> bool, t: string, budget: nat, i: nat, j: nat)
    requires EntryAt(d, t, i) && EntryAt(d, t, j) && i <= j < WindowFrom(d, t, budget, i)
    ensures Size(t[j..]) > budget
    decreases |t| - i
  {
    if i < j {
      WindowPasses(d, t, budget, Cut(d, t, i + 1), j);
    }
  }

  lemma {:induction false} WindowStops(d: char -> bool, t: string, budget: nat, i: nat, j: nat)
    requires EntryAt(d, t, i) && WindowFrom(d, t, budget, i) < j < |t| && Size(t[WindowFrom(d, t, budget, i)..]) > budget
    ensures !HeadAt(d, t, j)
    decreases |t| - i
  {
    var c := Cut(d, t, i + 1);
    if Size(t[i..]) > budget && c < |t| {
      WindowStops(d, t, budget, c, j);
    }
  }

  lemma WindowIsKept(d: char -> bool, t: string, budget: nat, k: nat)
    requires t != "" && k == WindowFrom(d, t, budget, 0)
    ensures KeptFrom(d, t, budget, k)
  {
    forall j | 0 <= j < k && EntryAt(d, t, j) ensures Size(t[j..]) > budget {
      WindowPasses(d, t, budget, 0, j);
    }
    if Size(t[k..]) > budget {
      forall j | k < j < |t| ensures !HeadAt(d, t, j) {
        WindowStops(d, t, budget, 0, j);
      }
    }
  }

  lemma CutFrom(d: char -> bool, t: string, i: nat, c: nat)
    requires EntryAt(d, t, i) && c == Cut(d, t, i + 1)
    ensures Cut(d, t[i..], 1) == c - i
  {
    var rest := t[i..];
    forall j | 1 <= j < c - i ensures !HeadAt(d, rest, j) {
      HeadInSuffix(d, t, i, j);
    }
    if c < |t| {
      HeadInSuffix(d, t, i, c - i);
    }
    CutIs(d, rest, c - i);
  }

  lemma SliceOfTail(t: string, i: nat, c: nat)
    requires i <= c <= |t|
    ensures t[i..][..c - i] == t[i..c] && t[i..][c - i..] == t[c..]
  {
  }

  lemma SplitIs(d: char -> bool, t: string, k: nat)
    requires t != "" && k == Cut(d, t, 1)
    ensures Split(d, t) == [t[..k]] + Split(d, t[k..])
  {
  }

  // The first entry of the text from position i on.
  lemma SplitFrom(d: char -> bool, t: string, i: nat, c: nat)
    requires EntryAt(d, t, i) && c == Cut(d, t, i + 1)
    ensures Split(d, t[i..]) == [t[i..c]] + Split(d, t[c..])
  {
    CutFrom(d, t, i, c);
    SplitIs(d, t[i..], c - i);
    SliceOfTail(t, i, c);
  }

  lemma KeptStep(es: seq<string>, e: string, budget: nat)
    ensures Kept([e] + es, budget) == if es == [] || Size(Concat([e] + es)) <= budget then [e] + es else Kept(es, budget)
  {
    assert ([e] + es)[1..] == es;
  }

  lemma {:induction false} KeptIsWindow(d: char -> bool, t: string, budget: nat, i: nat)
    requires EntryAt(d, t, i)
    ensures Concat(Kept(Split(d, t[i..]), budget)) == t[WindowFrom(d, t, budget, i)..]
    decreases |t| - i
  {
    var c := Cut(d, t, i + 1);
    SplitFrom(d, t, i, c);
    SplitConcat(d, t[i..]);
    PiecesNotEmpty(d, t[c..]);
    KeptStep(Split(d, t[c..]), t[i..c], budget);
    if Size(t[i..]) > budget && c < |t| {
      KeptIsWindow(d, t, budget, c);
    }
  }

  // A line break between two texts keeps their heads apart.
  lemma HeadsOfBase(d: char -> bool, base: string, e: string, i: nat)
    requires !d('\n') && (base == "" || Ends(base)) && i < |base|
    ensures HeadAt(d, base + e, i) <==> HeadAt(d, base, i)
  {
    var t := base + e;
    assert t[|base| - 1] == '\n';
    if i + HEAD_LENGTH <= |base| {
      assert forall k :: 0 <= k < |base| ==> t[k] == base[k];
    } else {
      assert !DatedAt(d, t, i);
    }
  }

  lemma HeadsBehind(d: char -> bool, base: string, e: string, i: nat)
    requires (base == "" || Ends(base)) && i < |e|
    ensures HeadAt(d, base + e, |base| + i) <==> HeadAt(d, e, i)
  {
    assert forall k :: 0 <= k < |e| ==> (base + e)[|base| + k] == e[k];
    assert base != "" ==> (base + e)[|base| - 1] == '\n';
  }

  lemma SizeOfSuffix(t: string, i: nat, j: nat)
    requires i <= j <= |t|
    ensures Size(t[j..]) <= Size(t[i..])
  {
    assert t[i..] == t[i..j] + t[j..];
    EncodeConcat(t[i..j], t[j..]);
  }

  lemma TailSurvives(t: string, e: string, k: nat, budget: nat)
    requires EndsWith(t, e) && k + |e| <= |t| && Size(e) <= budget
    ensures EndsWith(t[k..], e) && EndsWith(Fitting(t[k..], budget), e)
  {
    var rest, p := t[k..], |t| - |e|;
    assert rest[p - k..] == e;
    FittingIsLongest(rest, budget, p - k);
    var f := Fitting(rest, budget);
    assert f == rest[|rest| - |f|..];
    assert f[|f| - |e|..] == rest[p - k..];
  }

  lemma SliceConcat(a: string, b: string, c: nat)
    requires c <= |a|
    ensures (a + b)[c..] == a[c..] + b
  {
  }

  // The entry that e continues.
  lemma BaseEntry(d: char -> bool, base: string, e: string, c: nat)
    requires !d('\n') && (base == "" || Ends(base)) && e != "" && c == LastHead(d, base, |base|)
    ensures EntryAt(d, base + e, c) && (base + e)[c..] == LastEntry(d, base) + e
  {
    SliceConcat(base, e, c);
    if c > 0 {
      HeadsOfBase(d, base, e, c);
    }
  }

  lemma TooLongBase(d: char -> bool, base: string, e: string, budget: nat, k: nat)
    requires !d('\n') && (base == "" || Ends(base)) && e != "" && TooLongUpTo(d, base + e, budget, k) && |base| < k
    ensures Size(LastEntry(d, base) + e) > budget
  {
    BaseEntry(d, base, e, LastHead(d, base, |base|));
    assert LastHead(d, base, |base|) < k;
  }

  lemma TooLongEntry(d: char -> bool, base: string, e: string, budget: nat, k: nat)
    requires (base == "" || Ends(base)) && HeadAt(d, e, 0) && TooLongUpTo(d, base + e, budget, k) && |base| < k
    ensures Size(e) > budget
  {
    HeadsBehind(d, base, e, 0);
    assert (base + e)[|base|..] == e;
    assert EntryAt(d, base + e, |base|);
  }

  ghost predicate TooLongUpTo(d: char -> bool, t: string, budget: nat, k: nat) {
    k <= |t| && TooLongBefore(d, t, budget, k)
  }

  // The window starts behind the base only over a head of e, and only if e, and the
  // entry it continues with it, are too long.
  lemma StartsBehind(d: char -> bool, base: string, e: string, budget: nat, k: nat)
    requires !d('\n') && (base == "" || Ends(base)) && e != "" && Size(e) <= budget
    requires EntryAt(d, base + e, k) && TooLongBefore(d, base + e, budget, k) && |base| < k
    ensures !Single(d, e) && !HeadAt(d, e, 0) && Size(LastEntry(d, base) + e) > budget
  {
    HeadsBehind(d, base, e, k - |base|);
    TooLongBase(d, base, e, budget, k);
    if HeadAt(d, e, 0) {
      TooLongEntry(d, base, e, budget, k);
    }
  }

  // It starts within the base over no head of e, or because the entry that e
  // continues fits with it.
  lemma StartsWithin(d: char -> bool, base: string, e: string, budget: nat, k: nat)
    requires !d('\n') && (base == "" || Ends(base)) && e != "" && KeptFrom(d, base + e, budget, k) && k <= |base|
    ensures Single(d, e) || HeadAt(d, e, 0) || Size(LastEntry(d, base) + e) <= budget
  {
    if !Single(d, e) && !HeadAt(d, e, 0) {
      var h :| 0 < h < |e| && HeadAt(d, e, h);
      HeadsBehind(d, base, e, h);
      KeptAtLast(d, base, e, k, LastHead(d, base, |base|));
      BaseEntry(d, base, e, LastHead(d, base, |base|));
      SizeOfSuffix(base + e, k, LastHead(d, base, |base|));
    }
  }

  lemma WindowReaches(d: char -> bool, base: string, e: string, budget: nat, k: nat)
    requires !d('\n') && (base == "" || Ends(base)) && e != "" && Size(e) <= budget
    requires KeptFrom(d, base + e, budget, k)
    ensures k <= |base| <==>
      Single(d, e) || HeadAt(d, e, 0) || Size(LastEntry(d, base) + e) <= budget
  {
    if k > |base| {
      StartsBehind(d, base, e, budget, k);
    } else {
      StartsWithin(d, base, e, budget, k);
    }
  }

  lemma KeptAtLast(d: char -> bool, base: string, e: string, k: nat, c: nat)
    requires !d('\n') && (base == "" || Ends(base)) && e != "" && !HeadAt(d, e, 0)
    requires k <= |base| && (k == 0 || HeadAt(d, base + e, k)) && c == LastHead(d, base, |base|)
    ensures k <= c
  {
    if k == |base| {
      HeadsBehind(d, base, e, 0);
    } else {
      HeadsOfBase(d, base, e, k);
    }
  }

  lemma TailLost(t: string, e: string, k: nat, budget: nat)
    requires EndsWith(t, e) && k <= |t| < k + |e|
    ensures !EndsWith(t[k..], e) && !EndsWith(Fitting(t[k..], budget), e)
  {
    assert t[|t|..] == "" && Size("") == 0 && t[k..][|t| - k..] == "";
    FittingIsLongest(t[k..], budget, |t| - k);
  }

  lemma SuffixFits(t: string, e: string)
    requires EndsWith(t, e)
    ensures Size(e) <= Size(t)
  {
    SizeOfSuffix(t, 0, |t| - |e|);
    assert t[0..] == t;
  }

  lemma AllFits(d: char -> bool, base: string, e: string, budget: nat)
    requires Size(base + e) <= budget
    ensures Size(LastEntry(d, base) + e) <= budget
  {
    var c := LastHead(d, base, |base|);
    assert (base + e)[c..] == LastEntry(d, base) + e && (base + e)[0..] == base + e;
    SizeOfSuffix(base + e, 0, c);
  }

  lemma TooLongAlone(d: char -> bool, t: string, e: string, budget: nat)
    requires Ends(t) && 1 <= budget < Size(e)
    ensures !EndsWith(Windowed(d, t, budget), e)
  {
    var k := WindowBounds(d, t, budget);
    if EndsWith(Windowed(d, t, budget), e) {
      SuffixFits(Windowed(d, t, budget), e);
    }
  }

  lemma WindowedIs(d: char -> bool, t: string, budget: nat)
    requires Size(t) > budget >= 1 && t != ""
    ensures var rest := t[WindowFrom(d, t, budget, 0)..];
            Windowed(d, t, budget) == if Size(rest) <= budget then rest else Fitting(rest, budget)
  {
    assert t[0..] == t;
    KeptIsWindow(d, t, budget, 0);
  }

  // The window starts within the base exactly when it reaches all of e.
  lemma WindowEnds(d: char -> bool, base: string, e: string, budget: nat)
    requires Size(base + e) > budget >= 1 && e != "" && Size(e) <= budget
    ensures EndsWith(Windowed(d, base + e, budget), e) <==> WindowFrom(d, base + e, budget, 0) <= |base|
  {
    var t := base + e;
    var k := WindowFrom(d, t, budget, 0);
    WindowedIs(d, t, budget);
    assert EndsWith(t, e);
    if k <= |base| {
      TailSurvives(t, e, k, budget);
    } else {
      TailLost(t, e, k, budget);
    }
  }

  // Whatever the archive held: the text appended last ends it, in full, if and only if
  // it fits by itself and either starts with a head, has none further on, or fits
  // together with the last entry before it, which it continues.
  lemma NewestSurvives(d: char -> bool, current: string, entry: string, budget: nat)
    requires !d('\n') && 1 <= budget
    ensures var base, e := Separated(current), Ended(entry);
            EndsWith(Windowed(d, base + e, budget), e) <==>
            Size(e) <= budget && (Single(d, e) || HeadAt(d, e, 0) || Size(LastEntry(d, base) + e) <= budget)
  {
    var base, e := Separated(current), Ended(entry);
    var t := base + e;
    assert EndsWith(t, e) && Ends(t);
    if Size(e) > budget {
      TooLongAlone(d, t, e, budget);
    } else if Size(t) <= budget {
      AllFits(d, base, e, budget);
    } else {
      WindowIsKept(d, t, budget, WindowFrom(d, t, budget, 0));
      WindowReaches(d, base, e, budget, WindowFrom(d, t, budget, 0));
      WindowEnds(d, base, e, budget);
    }
  }
}
