/**
 Retrying compaction events that a crash or a failed call left pending.

 Each boot may sweep the stale events once; every attempt is claimed on the row
 before the call it is for.  `EventTable` is the table with the transactions that
 touch it, and `RecoveryRuns` lets boots, sweeps, crashes and the original
 background tasks interleave.
 */
module Recovery {
  import opened Messages

  const GRACE_SECONDS := 600
  const MAX_ATTEMPTS := 3

  datatype Status = Pending | Completed

  datatype Event = Event(status: Status, retries: nat, triggeredAt: int, range: Option<(nat, nat)>)

  predicate Claimable(e: Event) {
    e.status == Pending && e.retries < MAX_ATTEMPTS
  }

  predicate Stale(e: Event, cutoff: int, graceFloor: int) {
    Claimable(e) && cutoff <= e.triggeredAt <= graceFloor && e.range.Some?
  }

  // What the query for stale events returns: each of them once, oldest first.
  ghost predicate IsSelection(rows: seq<Event>, ids: seq<nat>, cutoff: int, graceFloor: int) {
    && (forall i :: 0 <= i < |ids| ==> ids[i] < |rows| && Stale(rows[ids[i]], cutoff, graceFloor))
    && (forall id :: 0 <= id < |rows| && Stale(rows[id], cutoff, graceFloor) ==> id in ids)
    && (forall i, j :: 0 <= i < j < |ids| ==> ids[i] != ids[j])
    && (forall i, j :: 0 <= i < j < |ids| && ids[j] < |rows| && ids[i] < |rows| ==>
          rows[ids[i]].triggeredAt <= rows[ids[j]].triggeredAt)
  }

  function Claimed(rows: seq<Event>, id: nat): seq<Event> {
    if id < |rows| && Claimable(rows[id]) then rows[id := rows[id].(retries := rows[id].retries + 1)] else rows
  }

  function Exhausted(rows: seq<Event>, id: nat): seq<Event> {
    if id < |rows| && rows[id].status == Pending then rows[id := rows[id].(retries := MAX_ATTEMPTS)] else rows
  }

  function Finished(rows: seq<Event>, id: nat): seq<Event> {
    if id < |rows| then rows[id := rows[id].(status := Completed)] else rows
  }

  // A compaction that completes an event which is not there writes a completed one,
  // without a range.
  function Persisted(rows: seq<Event>, id: Option<nat>, now: int): seq<Event> {
    if id.Some? && id.value < |rows| then Finished(rows, id.value) else rows + [Event(Completed, 0, now, None)]
  }

  // How an attempt goes once it is claimed: no message of the range is left, or the
  // compaction completes the row, or it does not (the call failed or raised).
  datatype Outcome = NothingLeft | Completes | Fails

  predicate CanClaim(rows: seq<Event>, id: nat) {
    id < |rows| && Claimable(rows[id])
  }

  function Retried(rows: seq<Event>, id: nat, outcome: Outcome): seq<Event> {
    if !CanClaim(rows, id) then rows
    else
      match outcome
      case NothingLeft => Exhausted(Claimed(rows, id), id)
      case Completes => Finished(Claimed(rows, id), id)
      case Fails => Claimed(rows, id)
  }

  function Swept(rows: seq<Event>, ids: seq<nat>, outcome: nat -> Outcome): seq<Event> {
    if ids == [] then rows
    else
      var last := ids[|ids| - 1];
      Retried(Swept(rows, ids[..|ids| - 1], outcome), last, outcome(last))
  }

  function CountCompleted(rows: seq<Event>, ids: seq<nat>, outcome: nat -> Outcome): nat {
    if ids == [] then 0
    else
      var last, before := ids[|ids| - 1], ids[..|ids| - 1];
      CountCompleted(rows, before, outcome) +
      (if CanClaim(Swept(rows, before, outcome), last) && outcome(last) == Completes then 1 else 0)
  }

  class EventTable {
    var rows: seq<Event>

    constructor (initial: seq<Event>)
      ensures rows == initial
    {
      rows := initial;
    }

    method ClaimAttempt(id: nat) returns (claimed: bool)
      modifies this
      ensures rows == Claimed(old(rows), id) && claimed == CanClaim(old(rows), id)
    {
      if id >= |rows| || rows[id].status != Pending || rows[id].retries >= MAX_ATTEMPTS {
        return false;
      }
      rows := rows[id := rows[id].(retries := rows[id].retries + 1)];
      claimed := true;
    }

    method ExhaustEvent(id: nat)
      modifies this
      ensures rows == Exhausted(old(rows), id)
    {
      if id < |rows| && rows[id].status == Pending {
        rows := rows[id := rows[id].(retries := MAX_ATTEMPTS)];
      }
    }

    method PersistCompleted(id: Option<nat>, now: int)
      modifies this
      ensures rows == Persisted(old(rows), id, now)
    {
      if id.Some? && id.value < |rows| {
        rows := rows[id.value := rows[id.value].(status := Completed)];
      } else {
        rows := rows + [Event(Completed, 0, now, None)];
      }
    }

    method RetryEvent(id: nat, outcome: Outcome, now: int) returns (completed: bool)
      modifies this
      ensures rows == Retried(old(rows), id, outcome)
      ensures completed == (CanClaim(old(rows), id) && outcome == Completes)
    {
      var claimed := ClaimAttempt(id);
      if !claimed {
        return false;
      }
      match outcome
      case NothingLeft =>
        ExhaustEvent(id);
        return false;
      case Completes =>
        PersistCompleted(Some(id), now);
        return rows[id].status == Completed;
      case Fails =>
        return rows[id].status == Completed;
    }

    method Recover(ids: seq<nat>, outcome: nat -> Outcome, now: int) returns (completed: nat)
      modifies this
      ensures rows == Swept(old(rows), ids, outcome) && completed == CountCompleted(old(rows), ids, outcome)
    {
      completed := 0;
      for i := 0 to |ids|
        invariant rows == Swept(old(rows), ids[..i], outcome)
        invariant completed == CountCompleted(old(rows), ids[..i], outcome)
      {
        assert ids[..i + 1][..i] == ids[..i];
        var flipped := RetryEvent(ids[i], outcome(ids[i]), now);
        if flipped {
          completed := completed + 1;
        }
      }
      assert ids[..|ids|] == ids;
    }
  }

  // ---- The attempts that are left ----------------------------------------------------

  function Left(e: Event): nat {
    if Claimable(e) then MAX_ATTEMPTS - e.retries else 0
  }

  function AllLeft(rows: seq<Event>): nat {
    if rows == [] then 0 else AllLeft(rows[..|rows| - 1]) + Left(rows[|rows| - 1])
  }

  lemma {:induction false} LeftUpdate(rows: seq<Event>, id: nat, e: Event)
    requires id < |rows|
    ensures AllLeft(rows[id := e]) + Left(rows[id]) == AllLeft(rows) + Left(e)
  {
    var n := |rows| - 1;
    if id == n {
      assert rows[id := e][..n] == rows[..n];
    } else {
      LeftUpdate(rows[..n], id, e);
      assert rows[id := e][..n] == rows[..n][id := e];
    }
  }

  // A retry of an event that can be claimed uses up at least one attempt, however it
  // ends, and touches no other event.
  lemma RetryUsesAttempt(rows: seq<Event>, id: nat, outcome: Outcome)
    ensures AllLeft(Retried(rows, id, outcome)) + (if CanClaim(rows, id) then 1 else 0) <= AllLeft(rows)
    ensures |Retried(rows, id, outcome)| == |rows|
    ensures forall i :: 0 <= i < |rows| && i != id ==> Retried(rows, id, outcome)[i] == rows[i]
  {
    if CanClaim(rows, id) {
      var claimed := Claimed(rows, id);
      LeftUpdate(rows, id, claimed[id]);
      var after := Retried(rows, id, outcome);
      LeftUpdate(claimed, id, after[id]);
      assert after == claimed[id := after[id]];
    }
  }

  // A sweep over distinct claimable events uses up at least one attempt of each.
  lemma {:induction false} SweepUsesAttempts(rows: seq<Event>, ids: seq<nat>, outcome: nat -> Outcome)
    requires forall i :: 0 <= i < |ids| ==> CanClaim(rows, ids[i])
    requires forall i, j :: 0 <= i < j < |ids| ==> ids[i] != ids[j]
    ensures AllLeft(Swept(rows, ids, outcome)) + |ids| <= AllLeft(rows) && |Swept(rows, ids, outcome)| == |rows|
    ensures forall id :: 0 <= id < |rows| && id !in ids ==> Swept(rows, ids, outcome)[id] == rows[id]
  {
    if ids != [] {
      var before, last := ids[..|ids| - 1], ids[|ids| - 1];
      SweepUsesAttempts(rows, before, outcome);
      assert last !in before;
      RetryUsesAttempt(Swept(rows, before, outcome), last, outcome(last));
    }
  }

  // Sweeps terminate: each one that finds a stale event leaves fewer attempts.
  lemma SweepsDryUp(rows: seq<Event>, ids: seq<nat>, cutoff: int, graceFloor: int, outcome: nat -> Outcome)
    requires IsSelection(rows, ids, cutoff, graceFloor) && exists id :: 0 <= id < |rows| && Stale(rows[id], cutoff, graceFloor)
    ensures AllLeft(Swept(rows, ids, outcome)) < AllLeft(rows)
  {
    SweepUsesAttempts(rows, ids, outcome);
  }

  // ---- In the fields of the events ----------------------------------------------------

  // Which events a sweep picks.
  lemma PickedIff(rows: seq<Event>, ids: seq<nat>, cutoff: int, graceFloor: int, id: nat)
    requires IsSelection(rows, ids, cutoff, graceFloor)
    ensures id in ids <==>
      id < |rows| && rows[id].status == Pending && rows[id].retries < 3 &&
      cutoff <= rows[id].triggeredAt <= graceFloor && rows[id].range.Some?
  {
    if id in ids {
      var i :| 0 <= i < |ids| && ids[i] == id;
    }
  }

  // What a retry leaves of the event and of the others: an event that is not pending or
  // was tried three times is not touched; else the attempt is counted, and the event
  // is completed, or never tried again when nothing is left to extract from, or waits.
  lemma RetryLeaves(rows: seq<Event>, id: nat, outcome: Outcome, i: nat)
    requires i < |rows|
    ensures var e, after := rows[i], Retried(rows, id, outcome);
            && |after| == |rows| && after[i].triggeredAt == e.triggeredAt && after[i].range == e.range
            && (i != id || e.status == Completed || 3 <= e.retries ==> after[i] == e)
            && (i == id && e.status == Pending && e.retries < 3 ==>
                  match outcome
                  case NothingLeft => after[i].status == Pending && after[i].retries == 3
                  case Completes => after[i].status == Completed && after[i].retries == e.retries + 1
                  case Fails => after[i].status == Pending && after[i].retries == e.retries + 1)
  {
  }

  // Giving an event up never touches one that was completed meanwhile.
  lemma ExhaustLeaves(rows: seq<Event>, id: nat, i: nat)
    requires i < |rows|
    ensures |Exhausted(rows, id)| == |rows|
    ensures Exhausted(rows, id)[i] ==
      if i == id && rows[i].status != Completed then Event(Pending, 3, rows[i].triggeredAt, rows[i].range) else rows[i]
  {
  }

  // What completing an event writes.
  lemma PersistedIs(rows: seq<Event>, id: Option<nat>, now: int)
    ensures var after := Persisted(rows, id, now);
            if id.Some? && id.value < |rows| then
              && |after| == |rows| && after[id.value] == rows[id.value].(status := Completed)
              && (forall i :: 0 <= i < |rows| && i != id.value ==> after[i] == rows[i])
            else after == rows + [Event(Completed, 0, now, None)]
  {
  }

  // What a sweep reports is how many of its events it completed.
  lemma {:induction false} CompletedIsCount(rows: seq<Event>, ids: seq<nat>, outcome: nat -> Outcome)
    requires forall i, j :: 0 <= i < j < |ids| ==> ids[i] != ids[j]
    requires forall i :: 0 <= i < |ids| ==> ids[i] < |rows|
    ensures |Swept(rows, ids, outcome)| == |rows|
    ensures forall i :: 0 <= i < |rows| && i !in ids ==> Swept(rows, ids, outcome)[i] == rows[i]
    ensures CountCompleted(rows, ids, outcome) ==
      |set i: nat | i < |rows| && i in ids && rows[i].status == Pending && Swept(rows, ids, outcome)[i].status == Completed|
  {
    if ids != [] {
      var before, last := ids[..|ids| - 1], ids[|ids| - 1];
      CompletedIsCount(rows, before, outcome);
      assert last !in before;
      CompletedLast(rows, before, last, outcome);
      assert ids == before + [last];
    }
  }

  function CompletedOf(rows: seq<Event>, ids: seq<nat>, after: seq<Event>): set<nat>
    requires |rows| == |after|
  {
    set i: nat | i < |rows| && i in ids && rows[i].status == Pending && after[i].status == Completed
  }

  lemma CompletedStep(rows: seq<Event>, mid: seq<Event>, after: seq<Event>, before: seq<nat>, last: nat)
    requires |rows| == |mid| == |after| && last < |rows| && last !in before && mid[last] == rows[last]
    requires forall i :: 0 <= i < |rows| && i != last ==> after[i] == mid[i]
    ensures |CompletedOf(rows, before + [last], after)| == |CompletedOf(rows, before, mid)| +
      if rows[last].status == Pending && after[last].status == Completed then 1 else 0
  {
    var was, now := CompletedOf(rows, before, mid), CompletedOf(rows, before + [last], after);
    assert now == if rows[last].status == Pending && after[last].status == Completed then was + {last} else was;
  }

  lemma CompletedLast(rows: seq<Event>, before: seq<nat>, last: nat, outcome: nat -> Outcome)
    requires last < |rows| && last !in before && |Swept(rows, before, outcome)| == |rows|
    requires Swept(rows, before, outcome)[last] == rows[last]
    requires CountCompleted(rows, before, outcome) == |CompletedOf(rows, before, Swept(rows, before, outcome))|
    ensures var after := Retried(Swept(rows, before, outcome), last, outcome(last));
            && |after| == |rows| && (forall i :: 0 <= i < |rows| && i != last ==> after[i] == Swept(rows, before, outcome)[i])
            && CountCompleted(rows, before, outcome) + (if CanClaim(rows, last) && outcome(last) == Completes then 1 else 0) ==
               |CompletedOf(rows, before + [last], after)|
  {
    var mid := Swept(rows, before, outcome);
    RetryUsesAttempt(mid, last, outcome(last));
    RetryLeaves(mid, last, outcome(last), last);
    CompletedStep(rows, mid, Retried(mid, last, outcome(last)), before, last);
  }
}
