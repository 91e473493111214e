/**
 The trim watermark of a conversation and the compaction events behind it.

 Rows at or below the watermark no longer reach the LLM.  Each writer that moves
 it records a range of row numbers whose facts are being extracted, unless there
 is nothing to extract.  `Ledger` is what the writers share; `Conversation` is the
 object they update; `Coverage` runs any interleaving of them.
 */
module Watermark {
  import opened Messages

  datatype Event = Event(min: nat, max: nat, byTrim: bool, trimmed: nat)

  datatype Ledger = Ledger(watermark: Option<nat>, events: seq<Event>)

  function Mark(w: Option<nat>): nat {
    if w.Some? then w.value else 0
  }

  function Number(m: Message): Option<nat> {
    if m.User? || m.Assistant? then m.seqNo else None
  }

  // The row numbers that messages carry.
  function Numbers(ms: seq<Message>): seq<nat> {
    if ms == [] then []
    else
      var n := Number(ms[|ms| - 1]);
      Numbers(ms[..|ms| - 1]) + (if n.Some? then [n.value] else [])
  }

  function Fresh(ns: seq<nat>, mark: nat): seq<nat> {
    if ns == [] then []
    else Fresh(ns[..|ns| - 1], mark) + (if ns[|ns| - 1] > mark then [ns[|ns| - 1]] else [])
  }

  function Kept(ms: seq<Message>, mark: nat): seq<Message> {
    if ms == [] then []
    else
      var n := Number(ms[|ms| - 1]);
      Kept(ms[..|ms| - 1], mark) + (if n.Some? && n.value <= mark then [] else [ms[|ms| - 1]])
  }

  function MinOf(ns: seq<nat>): (m: nat)
    requires ns != []
    ensures m in ns && forall n :: n in ns ==> m <= n
  {
    var last := ns[|ns| - 1];
    if |ns| == 1 then last
    else
      assert ns == ns[..|ns| - 1] + [last];
      var m := MinOf(ns[..|ns| - 1]); if last < m then last else m
  }

  function MaxOf(ns: seq<nat>): (m: nat)
    requires ns != []
    ensures m in ns && forall n :: n in ns ==> n <= m
  {
    var last := ns[|ns| - 1];
    if |ns| == 1 then last
    else
      assert ns == ns[..|ns| - 1] + [last];
      var m := MaxOf(ns[..|ns| - 1]); if last > m then last else m
  }

  // What the live watermark has not passed; a watermark of 0 filters nothing.
  function NotPassed(ns: seq<nat>, mark: nat): seq<nat> {
    if mark != 0 then Fresh(ns, mark) else ns
  }

  // Compaction of messages that were dropped: what the live watermark already
  // passed is left out, and the event covers the rest.
  function Triggered(l: Ledger, dropped: seq<Message>): Ledger {
    var mark := Mark(l.watermark);
    var ns := NotPassed(Numbers(dropped), mark);
    var kept := if mark != 0 then Kept(dropped, mark) else dropped;
    if ns == [] then l
    else AdvancedOnly(l, MaxOf(ns)).(events := l.events + [Event(MinOf(ns), MaxOf(ns), true, |kept|)])
  }

  function AdvancedOnly(l: Ledger, max: nat): Ledger {
    if max > Mark(l.watermark) then l.(watermark := Some(max)) else l
  }

  // The admin's compaction does not look at the live watermark before it records
  // its range.
  function AdminCompacted(l: Ledger, compacted: seq<Message>): Ledger {
    var ns := Numbers(compacted);
    if ns == [] then l
    else AdvancedOnly(l, MaxOf(ns)).(events := l.events + [Event(MinOf(ns), MaxOf(ns), false, |compacted|)])
  }

  class Conversation {
    var watermark: Option<nat>
    var events: seq<Event>

    ghost function View(): Ledger
      reads this
    {
      Ledger(watermark, events)
    }

    constructor ()
      ensures View() == Ledger(None, [])
    {
      watermark, events := None, [];
    }

    static method SeqsFromDropped(dropped: seq<Message>) returns (seqs: seq<nat>)
      ensures seqs == Numbers(dropped)
    {
      seqs := [];
      for i := 0 to |dropped|
        invariant seqs == Numbers(dropped[..i])
      {
        assert dropped[..i + 1][..i] == dropped[..i];
        var n := Number(dropped[i]);
        if n.Some? {
          seqs := seqs + [n.value];
        }
      }
      assert dropped[..|dropped|] == dropped;
    }

    method TriggerForDropped(dropped: seq<Message>)
      modifies this
      ensures View() == Triggered(old(View()), dropped)
    {
      var seqs := SeqsFromDropped(dropped);
      if seqs == [] {
        return;
      }
      var current := if watermark.Some? then watermark.value else 0;
      var kept := dropped;
      if current != 0 {
        seqs := Fresh(seqs, current);
        if seqs == [] {
          return;
        }
        kept := Kept(dropped, current);
      }
      Record(MinOf(seqs), MaxOf(seqs), true, |kept|, current);
    }

    method Record(min: nat, max: nat, byTrim: bool, trimmed: nat, current: nat)
      requires current == Mark(watermark)
      modifies this
      ensures View() == AdvancedOnly(old(View()), max).(events := old(events) + [Event(min, max, byTrim, trimmed)])
    {
      events := events + [Event(min, max, byTrim, trimmed)];
      if max > current {
        watermark := Some(max);
      }
    }

    method AdvanceOnly(max: nat)
      modifies this
      ensures View() == AdvancedOnly(old(View()), max)
    {
      var current := if watermark.Some? then watermark.value else 0;
      if max > current {
        watermark := Some(max);
      }
    }

    method AdminCompact(compacted: seq<Message>)
      modifies this
      ensures View() == AdminCompacted(old(View()), compacted)
    {
      var seqs := SeqsFromDropped(compacted);
      if seqs == [] {
        return;
      }
      Record(MinOf(seqs), MaxOf(seqs), false, |compacted|, Mark(watermark));
    }
  }

  lemma {:induction false} FreshMembers(ns: seq<nat>, mark: nat)
    ensures forall n :: n in Fresh(ns, mark) <==> n in ns && n > mark
  {
    if ns != [] {
      FreshMembers(ns[..|ns| - 1], mark);
      assert ns == ns[..|ns| - 1] + [ns[|ns| - 1]];
    }
  }

  // ---- What an event records, in the fields of the messages ---------------------------------

  predicate Carries(m: Message, n: nat) {
    (m.User? || m.Assistant?) && m.seqNo == Some(n)
  }

  predicate Passed(m: Message, mark: nat) {
    mark != 0 && (m.User? || m.Assistant?) && m.seqNo.Some? && m.seqNo.value <= mark
  }

  // One of the first k messages carries the number.
  ghost predicate Carried(ms: seq<Message>, n: nat, k: nat)
    requires k <= |ms|
  {
    exists i :: 0 <= i < k && Carries(ms[i], n)
  }

  // Some message carries the number, and the watermark has not passed it.
  ghost predicate IsNew(ms: seq<Message>, mark: nat, n: nat) {
    (mark == 0 || n > mark) && Carried(ms, n, |ms|)
  }

  ghost function NotPassedAt(ms: seq<Message>, mark: nat, k: nat): set<nat>
    requires k <= |ms|
  {
    set i: nat | i < k && !Passed(ms[i], mark)
  }

  lemma {:induction false} NumbersUpTo(ms: seq<Message>, n: nat, k: nat)
    requires k <= |ms|
    ensures n in Numbers(ms[..k]) <==> Carried(ms, n, k)
  {
    if k != 0 {
      NumbersUpTo(ms, n, k - 1);
      assert ms[..k][..k - 1] == ms[..k - 1];
      assert Number(ms[k - 1]) == Some(n) <==> Carries(ms[k - 1], n);
      assert Carried(ms, n, k) <==> Carried(ms, n, k - 1) || Carries(ms[k - 1], n);
    }
  }

  lemma NumbersAre(ms: seq<Message>, n: nat)
    ensures n in Numbers(ms) <==> Carried(ms, n, |ms|)
  {
    NumbersUpTo(ms, n, |ms|);
    assert ms[..|ms|] == ms;
  }

  lemma {:induction false} KeptCounts(ms: seq<Message>, mark: nat)
    requires mark != 0
    ensures |Kept(ms, mark)| == |NotPassedAt(ms, mark, |ms|)|
  {
    if ms != [] {
      var k := |ms| - 1;
      KeptCounts(ms[..k], mark);
      assert NotPassedAt(ms[..k], mark, k) == NotPassedAt(ms, mark, k);
      assert NotPassedAt(ms, mark, k + 1) == if Passed(ms[k], mark) then NotPassedAt(ms, mark, k) else NotPassedAt(ms, mark, k) + {k};
    }
  }

  lemma {:induction false} AllCount(ms: seq<Message>, k: nat)
    requires k <= |ms|
    ensures |NotPassedAt(ms, 0, k)| == k
  {
    if k != 0 {
      AllCount(ms, k - 1);
      assert NotPassedAt(ms, 0, k) == NotPassedAt(ms, 0, k - 1) + {k - 1};
    }
  }

  lemma NotPassedAre(ms: seq<Message>, mark: nat, n: nat)
    ensures n in NotPassed(Numbers(ms), mark) <==> IsNew(ms, mark, n)
  {
    NumbersAre(ms, n);
    FreshMembers(Numbers(ms), mark);
  }

  // The compaction of dropped messages does nothing if the watermark has passed all
  // their numbers; else its event spans exactly the others, counts the messages that
  // are not passed, numbered or not, and the watermark moves to its end.
  lemma EventIs(l: Ledger, dropped: seq<Message>)
    ensures var mark, t := if l.watermark.Some? then l.watermark.value else 0, Triggered(l, dropped);
            if forall n: nat :: !IsNew(dropped, mark, n) then t == l
            else
              && |t.events| == |l.events| + 1 && t.events[..|l.events|] == l.events
              && var e := t.events[|l.events|];
                 && IsNew(dropped, mark, e.min) && IsNew(dropped, mark, e.max)
                 && (forall n: nat :: IsNew(dropped, mark, n) ==> e.min <= n <= e.max)
                 && e.byTrim && e.trimmed == |NotPassedAt(dropped, mark, |dropped|)|
                 && t.watermark == (if e.max > mark then Some(e.max) else l.watermark)
  {
    var mark := Mark(l.watermark);
    forall n: nat ensures n in NotPassed(Numbers(dropped), mark) <==> IsNew(dropped, mark, n) {
      NotPassedAre(dropped, mark, n);
    }
    var ns := NotPassed(Numbers(dropped), mark);
    if ns != [] {
      assert IsNew(dropped, mark, ns[0]);
      if mark != 0 {
        KeptCounts(dropped, mark);
      } else {
        AllCount(dropped, |dropped|);
      }
    }
  }

  // The admin's event spans every number of what was compacted, passed or not.
  lemma AdminEventIs(l: Ledger, compacted: seq<Message>)
    ensures var mark, t := if l.watermark.Some? then l.watermark.value else 0, AdminCompacted(l, compacted);
            if forall n: nat :: !IsNew(compacted, 0, n) then t == l
            else
              && |t.events| == |l.events| + 1 && t.events[..|l.events|] == l.events
              && var e := t.events[|l.events|];
                 && IsNew(compacted, 0, e.min) && IsNew(compacted, 0, e.max)
                 && (forall n: nat :: IsNew(compacted, 0, n) ==> e.min <= n <= e.max)
                 && !e.byTrim && e.trimmed == |compacted|
                 && t.watermark == (if e.max > mark then Some(e.max) else l.watermark)
  {
    forall n: nat ensures n in Numbers(compacted) <==> IsNew(compacted, 0, n) {
      NumbersAre(compacted, n);
    }
    if Numbers(compacted) != [] {
      assert IsNew(compacted, 0, Numbers(compacted)[0]);
    }
  }
}
