/**
 Boots, sweeps and crashes.

 A step is one transaction.  Between two steps of a sweep the original task of any
 event may complete it.  The log has one entry for every attempt claimed.
 */
module RecoveryRuns {
  import opened Messages
  import opened Recovery

  datatype Attempt = Attempt(id: nat, sweptAt: int)

  datatype Sweep = Sweep(now: int, queue: seq<nat>, current: Option<nat>)

  // lock is the sweep that holds the advisory lock.
  datatype State = State(rows: seq<Event>, lock: Option<Sweep>, log: seq<Attempt>)

  datatype Step =
    | Insert(event: Event)
    | Boot(now: int, lookbackSeconds: nat, ids: seq<nat>)
    | TryNext
    | Exhaust
    | Compact(succeeds: bool)
    | Unlock
    | Crash
    | Original(id: Option<nat>, now: int)

  ghost predicate Enabled(s: State, a: Step) {
    match a
    case Insert(e) => e.retries == 0
    case Boot(now, lookback, ids) =>
      s.lock.None? && lookback > 0 && IsSelection(s.rows, ids, now - lookback, now - GRACE_SECONDS)
    case TryNext => s.lock.Some? && s.lock.value.current.None? && s.lock.value.queue != []
    case Exhaust => s.lock.Some? && s.lock.value.current.Some?
    case Compact(_) => s.lock.Some? && s.lock.value.current.Some?
    case Unlock => s.lock.Some? && s.lock.value.current.None? && s.lock.value.queue == []
    case Crash => s.lock.Some?
    case Original(_, _) => true
  }

  function Tried(s: State, w: Sweep): State
    requires w.queue != []
  {
    var id, rest := w.queue[0], w.(queue := w.queue[1..]);
    if CanClaim(s.rows, id)
    then State(Claimed(s.rows, id), Some(rest.(current := Some(id))), s.log + [Attempt(id, w.now)])
    else s.(lock := Some(rest))
  }

  ghost function Next(s: State, a: Step): State
    requires Enabled(s, a)
  {
    match a
    case Insert(e) => s.(rows := s.rows + [e])
    case Boot(now, _, ids) => s.(lock := Some(Sweep(now, ids, None)))
    case TryNext => Tried(s, s.lock.value)
    case Exhaust =>
      var w := s.lock.value;
      s.(rows := Exhausted(s.rows, w.current.value), lock := Some(w.(current := None)))
    case Compact(succeeds) =>
      var w := s.lock.value;
      s.(rows := if succeeds then Finished(s.rows, w.current.value) else s.rows, lock := Some(w.(current := None)))
    case Unlock => s.(lock := None)
    case Crash => s.(lock := None)
    case Original(id, now) => s.(rows := Persisted(s.rows, id, now))
  }

  ghost predicate Legal(s: State, run: seq<Step>)
    decreases |run|
  {
    run == [] || (Enabled(s, run[0]) && Legal(Next(s, run[0]), run[1..]))
  }

  ghost function Exec(s: State, run: seq<Step>): State
    requires Legal(s, run)
    decreases |run|
  {
    if run == [] then s else Exec(Next(s, run[0]), run[1..])
  }

  const Initial := State([], None, [])

  // ---- One step ------------------------------------------------------------------------

  // What happens to the row of an event.
  predicate Moves(e: Event, f: Event) {
    && e.retries <= f.retries && (e.status == Completed ==> f.status == Completed)
    && f.triggeredAt == e.triggeredAt && f.range == e.range
    && (e.retries <= MAX_ATTEMPTS ==> f.retries <= MAX_ATTEMPTS)
  }

  lemma StepMoves(s: State, a: Step)
    requires Enabled(s, a)
    ensures |s.rows| <= |Next(s, a).rows|
    ensures forall id :: 0 <= id < |s.rows| && s.rows[id].retries <= MAX_ATTEMPTS ==> Moves(s.rows[id], Next(s, a).rows[id])
  {
  }

  ghost predicate Bounded(s: State) {
    forall id :: 0 <= id < |s.rows| ==> s.rows[id].retries <= MAX_ATTEMPTS
  }

  // No event ever leaves "completed", and no retry count goes back or over 3.
  lemma {:induction false} RunMoves(s: State, run: seq<Step>)
    requires Legal(s, run) && Bounded(s)
    ensures Bounded(Exec(s, run)) && |s.rows| <= |Exec(s, run).rows|
    ensures forall id :: 0 <= id < |s.rows| ==> Moves(s.rows[id], Exec(s, run).rows[id])
    decreases |run|
  {
    if run != [] {
      var t := Next(s, run[0]);
      StepMoves(s, run[0]);
      assert Bounded(t);
      RunMoves(t, run[1..]);
    }
  }

  // ---- Attempts ---------------------------------------------------------------------------

  function Attempts(log: seq<Attempt>, id: nat): nat {
    if log == [] then 0
    else Attempts(log[..|log| - 1], id) + (if log[|log| - 1].id == id then 1 else 0)
  }

  lemma OneMoreAttempt(log: seq<Attempt>, a: Attempt, id: nat)
    ensures Attempts(log + [a], id) == Attempts(log, id) + (if a.id == id then 1 else 0)
  {
    assert (log + [a])[..|log|] == log;
  }

  ghost predicate AttemptsCounted(s: State) {
    && (forall id :: 0 <= id < |s.rows| ==> Attempts(s.log, id) <= s.rows[id].retries)
    && (forall i :: 0 <= i < |s.log| ==> s.log[i].id < |s.rows|)
  }

  // Old enough at the time of a sweep.
  predicate Aged(rows: seq<Event>, id: nat, now: int) {
    id < |rows| && rows[id].triggeredAt <= now - GRACE_SECONDS && rows[id].range.Some?
  }

  ghost predicate OnlyAged(s: State) {
    && (forall i :: 0 <= i < |s.log| ==> Aged(s.rows, s.log[i].id, s.log[i].sweptAt))
    && (s.lock.Some? ==> forall i :: 0 <= i < |s.lock.value.queue| ==> Aged(s.rows, s.lock.value.queue[i], s.lock.value.now))
  }

  ghost predicate Budget(s: State) {
    |s.log| + AllLeft(s.rows) <= MAX_ATTEMPTS * |s.rows|
  }

  ghost predicate Inv(s: State) {
    Bounded(s) && AttemptsCounted(s) && OnlyAged(s) && Budget(s)
  }

  lemma {:induction false} Unattempted(log: seq<Attempt>, id: nat)
    requires forall i :: 0 <= i < |log| ==> log[i].id != id
    ensures Attempts(log, id) == 0
  {
    if log != [] {
      Unattempted(log[..|log| - 1], id);
    }
  }

  lemma TryCounted(s: State)
    requires AttemptsCounted(s) && Enabled(s, TryNext)
    ensures AttemptsCounted(Next(s, TryNext))
  {
    var t := Next(s, TryNext);
    forall id | 0 <= id < |t.rows| ensures Attempts(t.log, id) <= t.rows[id].retries {
      OneMoreAttempt(s.log, Attempt(s.lock.value.queue[0], s.lock.value.now), id);
    }
  }

  lemma AttemptsStay(s: State, a: Step)
    requires AttemptsCounted(s) && Bounded(s) && Enabled(s, a)
    ensures AttemptsCounted(Next(s, a))
  {
    if a.TryNext? {
      TryCounted(s);
    } else {
      StepMoves(s, a);
      Unattempted(s.log, |s.rows|);
    }
  }

  lemma AgedStays(s: State, a: Step)
    requires OnlyAged(s) && Bounded(s) && Enabled(s, a)
    ensures OnlyAged(Next(s, a))
  {
    StepMoves(s, a);
    var t := Next(s, a);
    assert forall id, now :: Aged(s.rows, id, now) ==> Aged(t.rows, id, now);
  }

  lemma LeftSnoc(rows: seq<Event>, e: Event)
    ensures AllLeft(rows + [e]) == AllLeft(rows) + Left(e)
  {
    assert (rows + [e])[..|rows|] == rows;
  }

  // A claim uses up one attempt.
  lemma ClaimLeft(rows: seq<Event>, id: nat)
    ensures |Claimed(rows, id)| == |rows| && AllLeft(Claimed(rows, id)) + (if CanClaim(rows, id) then 1 else 0) == AllLeft(rows)
  {
    if CanClaim(rows, id) {
      LeftUpdate(rows, id, rows[id].(retries := rows[id].retries + 1));
    }
  }

  // Exhausting or completing an event uses up what was left of it.
  lemma EndLeft(rows: seq<Event>, id: nat)
    ensures |Exhausted(rows, id)| == |rows| && AllLeft(Exhausted(rows, id)) <= AllLeft(rows)
    ensures |Finished(rows, id)| == |rows| && AllLeft(Finished(rows, id)) <= AllLeft(rows)
  {
    if id < |rows| {
      LeftUpdate(rows, id, rows[id].(status := Completed));
      LeftUpdate(rows, id, rows[id].(retries := MAX_ATTEMPTS));
    }
  }

  lemma PersistLeft(rows: seq<Event>, id: Option<nat>, now: int)
    ensures |rows| <= |Persisted(rows, id, now)| && AllLeft(Persisted(rows, id, now)) <= AllLeft(rows)
  {
    if id.Some? && id.value < |rows| {
      EndLeft(rows, id.value);
    } else {
      LeftSnoc(rows, Event(Completed, 0, now, None));
    }
  }

  lemma BudgetStays(s: State, a: Step)
    requires Budget(s) && Enabled(s, a)
    ensures Budget(Next(s, a))
  {
    if a.Insert? {
      LeftSnoc(s.rows, a.event);
    } else if a.Original? {
      PersistLeft(s.rows, a.id, a.now);
    } else if a.TryNext? {
      ClaimLeft(s.rows, s.lock.value.queue[0]);
    } else if a.Exhaust? || a.Compact? {
      EndLeft(s.rows, s.lock.value.current.value);
    }
  }

  lemma StepInv(s: State, a: Step)
    requires Inv(s) && Enabled(s, a)
    ensures Inv(Next(s, a))
  {
    StepMoves(s, a);
    AttemptsStay(s, a);
    AgedStays(s, a);
    BudgetStays(s, a);
  }

  lemma {:induction false} RunInv(s: State, run: seq<Step>)
    requires Legal(s, run) && Inv(s)
    ensures Inv(Exec(s, run))
    decreases |run|
  {
    if run != [] {
      StepInv(s, run[0]);
      RunInv(Next(s, run[0]), run[1..]);
    }
  }

  // Over any number of boots, sweeps and crashes an event is claimed at most three
  // times, and only by a sweep that started at least ten minutes after it.
  lemma AtMostThreeAttempts(run: seq<Step>, id: nat)
    requires Legal(Initial, run)
    ensures Attempts(Exec(Initial, run).log, id) <= MAX_ATTEMPTS
    ensures var s := Exec(Initial, run);
            forall i :: 0 <= i < |s.log| ==>
              s.log[i].id < |s.rows| && s.rows[s.log[i].id].triggeredAt + GRACE_SECONDS <= s.log[i].sweptAt
  {
    RunInv(Initial, run);
    var s := Exec(Initial, run);
    if id >= |s.rows| {
      Unattempted(s.log, id);
    }
  }

  // All claims of a run together are at most three for every event written.
  lemma ClaimsAreBounded(run: seq<Step>)
    requires Legal(Initial, run)
    ensures var s := Exec(Initial, run); |s.log| + AllLeft(s.rows) <= MAX_ATTEMPTS * |s.rows|
  {
    RunInv(Initial, run);
  }

  // ---- What a sweep does ---------------------------------------------------------------------

  function Ending(o: Outcome): Step {
    match o
    case NothingLeft => Exhaust
    case Completes => Compact(true)
    case Fails => Compact(false)
  }

  // The steps of a sweep that nothing interrupts.
  function Script(rows: seq<Event>, ids: seq<nat>, outcome: nat -> Outcome): seq<Step>
    decreases |ids|
  {
    if ids == [] then []
    else
      var rest := Script(Retried(rows, ids[0], outcome(ids[0])), ids[1..], outcome);
      if CanClaim(rows, ids[0]) then [TryNext, Ending(outcome(ids[0]))] + rest else [TryNext] + rest
  }

  function Tries(rows: seq<Event>, ids: seq<nat>, outcome: nat -> Outcome, now: int): seq<Attempt>
    decreases |ids|
  {
    if ids == [] then []
    else
      (if CanClaim(rows, ids[0]) then [Attempt(ids[0], now)] else []) +
      Tries(Retried(rows, ids[0], outcome(ids[0])), ids[1..], outcome, now)
  }

  lemma {:induction false} SweptFront(rows: seq<Event>, ids: seq<nat>, outcome: nat -> Outcome)
    requires ids != []
    ensures Swept(rows, ids, outcome) == Swept(Retried(rows, ids[0], outcome(ids[0])), ids[1..], outcome)
  {
    if |ids| == 1 {
      assert ids[..0] == [] && ids[1..] == [];
    } else {
      SweptFront(rows, ids[..|ids| - 1], outcome);
      assert ids[..|ids| - 1][1..] == ids[1..][..|ids| - 2] && ids[1..][|ids| - 2] == ids[|ids| - 1];
    }
  }

  lemma OneTry(s: State, now: int, ids: seq<nat>, outcome: nat -> Outcome) returns (t: State)
    requires ids != [] && s.lock == Some(Sweep(now, ids, None))
    ensures t == State(Retried(s.rows, ids[0], outcome(ids[0])), Some(Sweep(now, ids[1..], None)),
      s.log + (if CanClaim(s.rows, ids[0]) then [Attempt(ids[0], now)] else []))
    ensures Enabled(s, TryNext)
    ensures if CanClaim(s.rows, ids[0]) then
      Enabled(Next(s, TryNext), Ending(outcome(ids[0]))) && t == Next(Next(s, TryNext), Ending(outcome(ids[0])))
      else t == Next(s, TryNext)
  {
    t := Next(s, TryNext);
    if CanClaim(s.rows, ids[0]) {
      t := Next(t, Ending(outcome(ids[0])));
    }
  }

  lemma {:induction false} ScriptRuns(s: State, now: int, ids: seq<nat>, outcome: nat -> Outcome)
    requires s.lock == Some(Sweep(now, ids, None))
    ensures Legal(s, Script(s.rows, ids, outcome))
    ensures Exec(s, Script(s.rows, ids, outcome)) ==
      State(Swept(s.rows, ids, outcome), Some(Sweep(now, [], None)), s.log + Tries(s.rows, ids, outcome, now))
    decreases |ids|
  {
    if ids == [] {
      assert s.log + [] == s.log;
    } else {
      var t := OneTry(s, now, ids, outcome);
      var rest := Script(t.rows, ids[1..], outcome);
      ScriptRuns(t, now, ids[1..], outcome);
      SweptFront(s.rows, ids, outcome);
      TriesFront(s, ids, outcome, now);
      if CanClaim(s.rows, ids[0]) {
        TwoFirst(s, TryNext, Ending(outcome(ids[0])), rest);
      } else {
        OneFirst(s, TryNext, rest);
      }
    }
  }

  lemma TriesFront(s: State, ids: seq<nat>, outcome: nat -> Outcome, now: int)
    requires ids != []
    ensures var one := if CanClaim(s.rows, ids[0]) then [Attempt(ids[0], now)] else [];
            var later := Tries(Retried(s.rows, ids[0], outcome(ids[0])), ids[1..], outcome, now);
            (s.log + one) + later == s.log + Tries(s.rows, ids, outcome, now)
  {
    var one := if CanClaim(s.rows, ids[0]) then [Attempt(ids[0], now)] else [];
    Assoc(s.log, one, Tries(Retried(s.rows, ids[0], outcome(ids[0])), ids[1..], outcome, now));
  }

  lemma OneFirst(s: State, a: Step, rest: seq<Step>)
    requires Enabled(s, a) && Legal(Next(s, a), rest)
    ensures Legal(s, [a] + rest) && Exec(s, [a] + rest) == Exec(Next(s, a), rest)
  {
    assert ([a] + rest)[1..] == rest;
  }

  lemma TwoFirst(s: State, a: Step, b: Step, rest: seq<Step>)
    requires Enabled(s, a) && Enabled(Next(s, a), b) && Legal(Next(Next(s, a), b), rest)
    ensures Legal(s, [a, b] + rest) && Exec(s, [a, b] + rest) == Exec(Next(Next(s, a), b), rest)
  {
    OneFirst(Next(s, a), b, rest);
    OneFirst(s, a, [b] + rest);
    assert [a, b] + rest == [a] + ([b] + rest);
  }

  lemma {:induction false} RunsOn(s: State, run: seq<Step>, a: Step)
    requires Legal(s, run) && Enabled(Exec(s, run), a)
    ensures Legal(s, run + [a]) && Exec(s, run + [a]) == Next(Exec(s, run), a)
    decreases |run|
  {
    if run == [] {
      assert (run + [a])[1..] == [];
    } else {
      RunsOn(Next(s, run[0]), run[1..], a);
      assert (run + [a])[1..] == run[1..] + [a];
    }
  }

  // A sweep that is not interrupted is what the loop over the events computes: each is
  // retried in turn, one attempt is logged for each that could be claimed, and the lock
  // is free again.
  lemma SweepRefines(s: State, now: int, lookback: nat, ids: seq<nat>, outcome: nat -> Outcome) returns (run: seq<Step>)
    requires Enabled(s, Boot(now, lookback, ids))
    ensures run == [Boot(now, lookback, ids)] + Script(s.rows, ids, outcome) + [Unlock] && Legal(s, run)
    ensures Exec(s, run) == State(Swept(s.rows, ids, outcome), None, s.log + Tries(s.rows, ids, outcome, now))
  {
    var t := Next(s, Boot(now, lookback, ids));
    ScriptRuns(t, now, ids, outcome);
    RunsOn(t, Script(s.rows, ids, outcome), Unlock);
    OneFirst(s, Boot(now, lookback, ids), Script(s.rows, ids, outcome) + [Unlock]);
    run := [Boot(now, lookback, ids)] + Script(s.rows, ids, outcome) + [Unlock];
    assert run == [Boot(now, lookback, ids)] + (Script(s.rows, ids, outcome) + [Unlock]);
  }

  // ---- Retry counts are claims ------------------------------------------------------------------

  // An event was claimed as often as its retry count says, unless it is at the cap.
  ghost predicate CountsExact(s: State) {
    forall id :: 0 <= id < |s.rows| ==> s.rows[id].retries == Attempts(s.log, id) || s.rows[id].retries == MAX_ATTEMPTS
  }

  lemma TryExact(s: State)
    requires CountsExact(s) && Enabled(s, TryNext)
    ensures CountsExact(Next(s, TryNext))
  {
    var t := Next(s, TryNext);
    forall id | 0 <= id < |t.rows| ensures t.rows[id].retries == Attempts(t.log, id) || t.rows[id].retries == MAX_ATTEMPTS {
      OneMoreAttempt(s.log, Attempt(s.lock.value.queue[0], s.lock.value.now), id);
    }
  }

  lemma StepExact(s: State, a: Step)
    requires CountsExact(s) && AttemptsCounted(s) && Enabled(s, a)
    ensures CountsExact(Next(s, a))
  {
    if a.TryNext? {
      TryExact(s);
    } else {
      Unattempted(s.log, |s.rows|);
    }
  }

  lemma {:induction false} RunExact(s: State, run: seq<Step>)
    requires Legal(s, run) && Inv(s) && CountsExact(s)
    ensures Inv(Exec(s, run)) && CountsExact(Exec(s, run))
    decreases |run|
  {
    if run != [] {
      StepExact(s, run[0]);
      StepInv(s, run[0]);
      RunExact(Next(s, run[0]), run[1..]);
    }
  }

  // In every run the retry count of an event below the cap is the number of its claims.
  lemma RetriesAreClaims(run: seq<Step>, id: nat)
    requires Legal(Initial, run) && id < |Exec(Initial, run).rows| && Exec(Initial, run).rows[id].retries < 3
    ensures Exec(Initial, run).rows[id].retries == Attempts(Exec(Initial, run).log, id)
  {
    RunExact(Initial, run);
  }

  // ---- One sweep at a time, and none of its events left out -------------------------------------------

  predicate Quits(a: Step) {
    a.Unlock? || a.Crash?
  }

  // While one sweep goes on no other starts.
  lemma {:induction false} OneSweepAtATime(s: State, run: seq<Step>, i: nat)
    requires s.lock.Some? && Legal(s, run) && (forall k :: 0 <= k < |run| ==> !Quits(run[k])) && i < |run|
    ensures !run[i].Boot?
    decreases |run|
  {
    if i > 0 {
      OneSweepAtATime(Next(s, run[0]), run[1..], i - 1);
    }
  }

  // What the sweep over ids has behind it was claimed by it or could not be claimed.
  ghost predicate Behind(s: State, now: int, ids: seq<nat>) {
    && s.lock.Some? && s.lock.value.now == now && |s.lock.value.queue| <= |ids|
    && s.lock.value.queue == ids[|ids| - |s.lock.value.queue|..]
    && (forall i :: 0 <= i < |ids| - |s.lock.value.queue| ==> Settled(s, now, ids[i]))
  }

  predicate Settled(s: State, now: int, id: nat) {
    Attempt(id, now) in s.log || (id < |s.rows| && !CanClaim(s.rows, id))
  }

  lemma SettledStays(s: State, a: Step, now: int, id: nat)
    requires Bounded(s) && Enabled(s, a) && Settled(s, now, id)
    ensures Settled(Next(s, a), now, id)
  {
    StepMoves(s, a);
    if Attempt(id, now) in s.log {
      var i :| 0 <= i < |s.log| && s.log[i] == Attempt(id, now);
      assert Next(s, a).log[i] == Attempt(id, now);
    }
  }

  lemma TriedSettled(s: State)
    requires Enabled(s, TryNext) && s.lock.value.queue[0] < |s.rows|
    ensures Settled(Next(s, TryNext), s.lock.value.now, s.lock.value.queue[0])
  {
    var id, now := s.lock.value.queue[0], s.lock.value.now;
    if CanClaim(s.rows, id) {
      assert Next(s, TryNext).log[|s.log|] == Attempt(id, now);
    }
  }

  lemma BehindStep(s: State, a: Step, now: int, ids: seq<nat>)
    requires Bounded(s) && Behind(s, now, ids) && Enabled(s, a) && !Quits(a) && forall i :: 0 <= i < |ids| ==> ids[i] < |s.rows|
    ensures Behind(Next(s, a), now, ids)
  {
    var t := Next(s, a);
    var p, q := |ids| - |s.lock.value.queue|, |ids| - |t.lock.value.queue|;
    assert t.lock.value.queue == ids[q..];
    if a.TryNext? {
      TriedSettled(s);
    }
    forall i | 0 <= i < q ensures Settled(t, now, ids[i]) {
      if i < p {
        SettledStays(s, a, now, ids[i]);
      }
    }
  }

  lemma {:induction false} BehindRun(s: State, run: seq<Step>, now: int, ids: seq<nat>)
    requires Bounded(s) && Behind(s, now, ids) && Legal(s, run) && (forall k :: 0 <= k < |run| ==> !Quits(run[k]))
    requires forall i :: 0 <= i < |ids| ==> ids[i] < |s.rows|
    ensures Behind(Exec(s, run), now, ids)
    decreases |run|
  {
    if run != [] {
      BehindStep(s, run[0], now, ids);
      StepMoves(s, run[0]);
      BehindRun(Next(s, run[0]), run[1..], now, ids);
    }
  }

  lemma NoneLeft(s: State, now: int, ids: seq<nat>, i: nat)
    requires Behind(s, now, ids) && Enabled(s, Unlock) && i < |ids|
    ensures s.lock.value.current == None
    ensures Attempt(ids[i], now) in s.log || (ids[i] < |s.rows| && (s.rows[ids[i]].status == Completed || 3 <= s.rows[ids[i]].retries))
  {
    assert Settled(s, now, ids[i]);
  }

  // A sweep that comes to its end has claimed each of its events, or found it completed,
  // exhausted or at the cap.
  lemma SweepLeavesNone(s: State, now: int, lookback: nat, ids: seq<nat>, run: seq<Step>, i: nat)
    requires Bounded(s) && Enabled(s, Boot(now, lookback, ids)) && Legal(Next(s, Boot(now, lookback, ids)), run)
    requires (forall k :: 0 <= k < |run| ==> !Quits(run[k])) && i < |ids|
    requires Enabled(Exec(Next(s, Boot(now, lookback, ids)), run), Unlock)
    ensures var t := Exec(Next(s, Boot(now, lookback, ids)), run);
            && t.lock.value.current == None
            && (Attempt(ids[i], now) in t.log || (ids[i] < |t.rows| && (t.rows[ids[i]].status == Completed || 3 <= t.rows[ids[i]].retries)))
  {
    var t := Next(s, Boot(now, lookback, ids));
    assert ids[0..] == ids;
    BehindRun(t, run, now, ids);
    NoneLeft(Exec(t, run), now, ids, i);
  }

  // ---- Which events are completed, and who holds the lock ------------------------------------

  // The step completes event id: its own task, or the sweep that works on it.
  predicate Completes(s: State, a: Step, id: nat) {
    || (a.Original? && a.id == Some(id))
    || (a == Compact(true) && s.lock.Some? && s.lock.value.current == Some(id))
  }

  ghost predicate CompletesIn(s: State, run: seq<Step>, id: nat)
    requires Legal(s, run)
    decreases |run|
  {
    run != [] && (Completes(s, run[0], id) || CompletesIn(Next(s, run[0]), run[1..], id))
  }

  lemma CompletesStep(s: State, a: Step, id: nat)
    requires Enabled(s, a) && id < |s.rows|
    ensures id < |Next(s, a).rows|
    ensures Next(s, a).rows[id].status == Completed <==> s.rows[id].status == Completed || Completes(s, a, id)
  {
  }

  // Over any run an event is completed if and only if it was at the start, or its own
  // task completed it, or a sweep did while it worked on it.
  lemma {:induction false} CompletedIff(s: State, run: seq<Step>, id: nat)
    requires Legal(s, run) && id < |s.rows|
    ensures id < |Exec(s, run).rows|
    ensures Exec(s, run).rows[id].status == Completed <==> s.rows[id].status == Completed || CompletesIn(s, run, id)
    decreases |run|
  {
    if run != [] {
      CompletesStep(s, run[0], id);
      CompletedIff(Next(s, run[0]), run[1..], id);
    }
  }

  // The last boot, unlock or crash of the run is a boot.
  ghost predicate BootsLast(run: seq<Step>, held: bool)
    decreases |run|
  {
    if run == [] then held
    else if run[|run| - 1].Boot? then true
    else if Quits(run[|run| - 1]) then false
    else BootsLast(run[..|run| - 1], held)
  }

  lemma BootsFront(run: seq<Step>, held: bool)
    requires run != []
    ensures BootsLast(run, held) == BootsLast(run[1..], run[0].Boot? || (held && !Quits(run[0])))
    decreases |run|
  {
    if |run| > 1 {
      BootsFront(run[..|run| - 1], held);
      assert run[1..][..|run| - 2] == run[..|run| - 1][1..];
    }
  }

  // A sweep holds the lock if and only if the last boot, unlock or crash was a boot; a
  // new one starts if and only if none does, retries are switched on, and it takes
  // exactly the stale events.
  lemma LockIff(run: seq<Step>, now: int, lookback: nat, ids: seq<nat>)
    requires Legal(Initial, run)
    ensures Exec(Initial, run).lock.Some? <==> BootsLast(run, false)
    ensures Enabled(Exec(Initial, run), Boot(now, lookback, ids)) <==>
            && !BootsLast(run, false) && lookback != 0
            && IsSelection(Exec(Initial, run).rows, ids, now - lookback, now - 600)
  {
    LockRun(Initial, run);
  }

  lemma {:induction false} LockRun(s: State, run: seq<Step>)
    requires Legal(s, run)
    ensures Exec(s, run).lock.Some? <==> BootsLast(run, s.lock.Some?)
    decreases |run|
  {
    if run != [] {
      BootsFront(run, s.lock.Some?);
      LockRun(Next(s, run[0]), run[1..]);
    }
  }

  function Concluded(run: seq<Step>): nat {
    if run == [] then 0 else (if run[0].Exhaust? || run[0].Compact? then 1 else 0) + Concluded(run[1..])
  }

  // A sweep works on one event at a time: of the attempts it claimed all were concluded
  // but the one it works on.
  lemma {:induction false} OneEventAtATime(s: State, run: seq<Step>)
    requires s.lock.Some? && Legal(s, run) && forall k :: 0 <= k < |run| ==> !Quits(run[k])
    ensures Exec(s, run).lock.Some?
    ensures |Exec(s, run).log| + (if s.lock.value.current.Some? then 1 else 0) ==
            |s.log| + Concluded(run) + (if Exec(s, run).lock.value.current.Some? then 1 else 0)
    decreases |run|
  {
    if run != [] {
      OneEventAtATime(Next(s, run[0]), run[1..]);
    }
  }

  // New rows come from the program's own triggers, which may write at any time: one for
  // each event inserted and for each completion of an event that is not there.
  function Writes(s: State, a: Step): seq<Event> {
    match a
    case Insert(e) => [e]
    case Original(id, now) => if id.Some? && id.value < |s.rows| then [] else [Event(Completed, 0, now, None)]
    case _ => []
  }

  lemma RowsAppended(s: State, a: Step)
    requires Enabled(s, a)
    ensures |Next(s, a).rows| == |s.rows| + |Writes(s, a)| && Next(s, a).rows[|s.rows|..] == Writes(s, a)
    ensures forall id, now :: Enabled(s, Original(id, now))
  {
  }
}
