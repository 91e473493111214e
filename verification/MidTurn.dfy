/**
 The per-user inbox of dispatches a running turn may fold in.

 The functions give the value of the inbox after each operation; the class is
 the object itself, whose methods change one field in place and are proved
 against those functions.  Entries are compared by identity, so the functions
 are generic in the type of an entry: the class uses references, the protocol
 in `FoldProtocol` uses dispatch numbers.
 */
module MidTurn {

  type Inbox<T> = map<string, seq<T>>

  function Entries<T>(box: Inbox<T>, user: string): seq<T> {
    if user in box then box[user] else []
  }

  // A user whose list became empty has no key.
  function Put<T>(box: Inbox<T>, user: string, entries: seq<T>): Inbox<T> {
    if entries == [] then box - {user} else box[user := entries]
  }

  function Registered<T>(box: Inbox<T>, user: string, e: T): Inbox<T> {
    Put(box, user, Entries(box, user) + [e])
  }

  // The first occurrence of e goes, the order of the others stays.
  function Without<T(==)>(s: seq<T>, e: T): seq<T> {
    if s == [] then [] else if s[0] == e then s[1..] else [s[0]] + Without(s[1..], e)
  }

  function Unregistered<T(==)>(box: Inbox<T>, user: string, e: T): Inbox<T> {
    Put(box, user, Without(Entries(box, user), e))
  }

  function Keep<T>(s: seq<T>, p: T -> bool): seq<T> {
    if s == [] then [] else (if p(s[0]) then [s[0]] else []) + Keep(s[1..], p)
  }

  function Drop<T>(s: seq<T>, p: T -> bool): seq<T> {
    if s == [] then [] else (if p(s[0]) then [] else [s[0]]) + Drop(s[1..], p)
  }

  function Left<T>(box: Inbox<T>, user: string, p: T -> bool): Inbox<T> {
    Put(box, user, Drop(Entries(box, user), p))
  }

  ghost predicate Distinct<T>(s: seq<T>) {
    forall i, j :: 0 <= i < j < |s| ==> s[i] != s[j]
  }

  lemma {:induction false} KeepMembers<T>(s: seq<T>, p: T -> bool)
    ensures forall x :: x in Keep(s, p) <==> x in s && p(x)
    ensures forall x :: x in Drop(s, p) <==> x in s && !p(x)
  {
    if s != [] {
      KeepMembers(s[1..], p);
    }
  }

  lemma {:induction false} KeepDistinct<T>(s: seq<T>, p: T -> bool)
    requires Distinct(s)
    ensures Distinct(Keep(s, p)) && Distinct(Drop(s, p))
  {
    if s != [] {
      KeepDistinct(s[1..], p);
      KeepMembers(s[1..], p);
    }
  }

  lemma {:induction false} WithoutMembers<T>(s: seq<T>, e: T)
    requires Distinct(s)
    ensures forall x :: x in Without(s, e) <==> x in s && x != e
    ensures Distinct(Without(s, e))
  {
    if s != [] {
      var rest := s[1..];
      assert s == [s[0]] + rest;
      assert Distinct(rest) && s[0] !in rest;
      if s[0] != e {
        WithoutMembers(rest, e);
        assert s[0] !in Without(rest, e);
      }
    }
  }

  lemma {:induction false} KeptWanted<T>(s: seq<T>, p: T -> bool, i: nat)
    requires i < |Keep(s, p)|
    ensures Keep(s, p)[i] in s && p(Keep(s, p)[i])
  {
    var first := if p(s[0]) then 1 else 0;
    if i >= first {
      KeptWanted(s[1..], p, i - first);
    }
  }

  // Claiming splits the list: what is taken and what is left make up the whole.
  lemma {:induction false} ClaimPartitions<T>(s: seq<T>, p: T -> bool)
    ensures multiset(Keep(s, p)) + multiset(Drop(s, p)) == multiset(s)
  {
    if s != [] {
      var head, rest := [s[0]], s[1..];
      ClaimPartitions(rest, p);
      assert s == head + rest;
      if p(s[0]) {
        assert Keep(s, p) == head + Keep(rest, p) && Drop(s, p) == Drop(rest, p);
      } else {
        assert Drop(s, p) == head + Drop(rest, p) && Keep(s, p) == Keep(rest, p);
      }
    }
  }

  // Neither part is reordered: an entry stands behind as many of its own part as
  // stood in front of it before.
  lemma {:induction false} ClaimKeepsOrder<T>(s: seq<T>, p: T -> bool, i: nat)
    requires i < |s|
    ensures p(s[i]) ==> |Keep(s[..i], p)| < |Keep(s, p)| && Keep(s, p)[|Keep(s[..i], p)|] == s[i]
    ensures !p(s[i]) ==> |Drop(s[..i], p)| < |Drop(s, p)| && Drop(s, p)[|Drop(s[..i], p)|] == s[i]
  {
    if i > 0 {
      assert s[..i][1..] == s[1..][..i - 1];
      ClaimKeepsOrder(s[1..], p, i - 1);
    }
  }

  class PendingInbound {
    const userId: string
    const sessionId: string
    const channel: string
    const messages: seq<nat>
    var consumed: bool

    constructor (userId: string, sessionId: string, channel: string, messages: seq<nat>)
      ensures this.userId == userId && this.sessionId == sessionId && this.channel == channel
      ensures this.messages == messages && !consumed
    {
      this.userId, this.sessionId, this.channel := userId, sessionId, channel;
      this.messages, consumed := messages, false;
    }

    predicate For(sessionId: string, channel: string) {
      this.sessionId == sessionId && this.channel == channel
    }
  }

  lemma WithoutStep<T>(s: seq<T>, e: T, i: nat)
    requires i < |s| && s[i] != e
    ensures s[..i] + Without(s[i..], e) == s[..i + 1] + Without(s[i + 1..], e)
  {
    assert s[i..][1..] == s[i + 1..];
    assert s[..i + 1] == s[..i] + [s[i]];
  }

  class MidTurnInbox {
    var pending: Inbox<PendingInbound>

    constructor ()
      ensures pending == map[]
    {
      pending := map[];
    }

    method Register(entry: PendingInbound)
      modifies this
      ensures pending == Registered(old(pending), entry.userId, entry)
    {
      var entries := if entry.userId in pending then pending[entry.userId] else [];
      pending := pending[entry.userId := entries + [entry]];
    }

    method Unregister(entry: PendingInbound)
      requires forall u :: u in pending ==> pending[u] != []
      modifies this
      ensures pending == Unregistered(old(pending), entry.userId, entry)
      ensures forall u :: u in pending ==> pending[u] != []
    {
      if entry.userId !in pending {
        return;
      }
      var entries := pending[entry.userId];
      entries := Remove(entries, entry);
      if entries == [] {
        pending := pending - {entry.userId};
      } else {
        pending := pending[entry.userId := entries];
      }
    }

    static method Remove(entries: seq<PendingInbound>, entry: PendingInbound) returns (rest: seq<PendingInbound>)
      ensures rest == Without(entries, entry)
    {
      var i := 0;
      while i < |entries| && entries[i] != entry
        invariant 0 <= i <= |entries|
        invariant Without(entries, entry) == entries[..i] + Without(entries[i..], entry)
      {
        WithoutStep(entries, entry, i);
        i := i + 1;
      }
      if i < |entries| {
        rest := entries[..i] + entries[i + 1..];
      } else {
        rest := entries;
      }
    }

    // Taking an entry out of the list and marking it consumed is one step: no
    // caller can see the one without the other.
    method Claim(userId: string, sessionId: string, channel: string) returns (claimed: seq<PendingInbound>)
      requires forall u :: u in pending ==> pending[u] != []
      modifies this, set e | e in Entries(pending, userId)
      ensures claimed == Keep(old(Entries(pending, userId)), (e: PendingInbound) => e.For(sessionId, channel))
      ensures forall i :: 0 <= i < |claimed| ==>
        claimed[i] in old(Entries(pending, userId)) && claimed[i].sessionId == sessionId && claimed[i].channel == channel
      ensures forall e :: e in old(Entries(pending, userId)) && e.sessionId == sessionId && e.channel == channel ==> e in claimed
      ensures pending == Left(old(pending), userId, (e: PendingInbound) => e.For(sessionId, channel))
      ensures forall e :: e in claimed ==> e.consumed
      ensures forall e :: e in old(Entries(pending, userId)) && e !in claimed ==> e.consumed == old(e.consumed)
      ensures forall u :: u in pending ==> pending[u] != []
    {
      var wanted := (e: PendingInbound) => e.For(sessionId, channel);
      if userId !in pending {
        return [];
      }
      var entries := pending[userId];
      claimed := Keep(entries, wanted);
      var remaining := Drop(entries, wanted);
      KeepMembers(entries, wanted);
      forall i | 0 <= i < |claimed| ensures claimed[i] in entries && claimed[i].For(sessionId, channel) {
        KeptWanted(entries, wanted, i);
      }
      if claimed == [] {
        NothingTaken(entries, wanted);
        return;
      }
      if remaining != [] {
        pending := pending[userId := remaining];
      } else {
        pending := pending - {userId};
      }
      MarkConsumed(claimed);
    }

    static method MarkConsumed(claimed: seq<PendingInbound>)
      modifies claimed
      ensures forall e :: e in claimed ==> e.consumed
    {
      for i := 0 to |claimed|
        invariant forall k :: 0 <= k < i ==> claimed[k].consumed
      {
        claimed[i].consumed := true;
      }
    }
  }

  lemma {:induction false} NothingTaken<T>(s: seq<T>, p: T -> bool)
    requires Keep(s, p) == []
    ensures Drop(s, p) == s
  {
    if s != [] {
      NothingTaken(s[1..], p);
    }
  }
}
