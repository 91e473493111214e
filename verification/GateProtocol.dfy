/**
 Any number of approval requests and replies, cut at their suspension points.

 A request may time out, fail to publish or lose its turn at any point, and a reply
 may lose its task; audit records and row writes succeed.
 */
module GateProtocol {
  import opened Approval

  // How far a request has come.  Aborted: its turn was cancelled, which skips the
  // clean-up.
  datatype Phase =
    | Starting
    | Logged
    | Stored
    | Publishing
    | Awaiting
    | Cleaning(result: Decision, timedOut: bool)
    | Reporting(result: Decision)
    | Returned(result: Decision)
    | Aborted

  datatype Stage = Deleting | Recording | Waking | Done

  // lost: its task was cancelled before it was done.
  datatype Call = Call(target: nat, decision: Decision, stage: Stage, lost: bool)

  // Its "decided" record is written.
  predicate Recorded(call: Call) {
    call.stage.Waking? || call.stage.Done?
  }

  datatype Audit =
    | Requested(r: nat)
    | Decided(r: nat, decision: Decision)
    | TimedOut(r: nat)

  // rows holds the request that last wrote the user's row; sets records every
  // decision a resolution stored, with the request it stored it on, and woken the
  // requests that stopped waiting because of a reply.
  datatype State = State(
    gate: Gate,
    owner: map<nat, string>,
    phase: map<nat, Phase>,
    calls: map<nat, Call>,
    rows: map<string, nat>,
    audit: seq<Audit>,
    sets: seq<(nat, Decision)>,
    woken: set<nat>)

  const Init := State(Gate(map[], map[]), map[], map[], map[], map[], [], [], {})

  datatype Action =
    | Begin(r: nat, user: string)
    | LogRequested(r: nat)
    | Persist(r: nat)
    | Register(r: nat, prompt: string)
    | Publish(r: nat)
    | PublishFails(r: nat)
    | Wake(r: nat)
    | TimeOut(r: nat)
    | DeleteRow(r: nat)
    | LogTimedOut(r: nat)
    | Abort(r: nat)
    | Resolve(c: nat, user: string, decision: Decision)
    | Advance(c: nat)  // a resolution runs on to its next suspension point
    | Lose(c: nat)     // a resolution's task is cancelled
    | Ambiguous(user: string)

  predicate At(s: State, r: nat, p: Phase) {
    r in s.phase && r in s.owner && s.phase[r] == p
  }

  predicate Owned(s: State, r: nat, u: string) {
    r in s.phase && r in s.owner && s.owner[r] == u
  }

  predicate Live(p: Phase) {
    !p.Returned? && !p.Aborted?
  }

  predicate Enabled(s: State, a: Action) {
    match a
    case Begin(r, _) => r !in s.phase && r !in s.owner
    case LogRequested(r) => At(s, r, Starting)
    case Persist(r) => At(s, r, Logged)
    case Register(r, _) => At(s, r, Stored)
    case Publish(r) => At(s, r, Publishing)
    case PublishFails(r) => At(s, r, Publishing)
    case Wake(r) => At(s, r, Awaiting) && r in s.gate.objects && s.gate.objects[r].event
    case TimeOut(r) => At(s, r, Awaiting)
    case DeleteRow(r) => r in s.phase && r in s.owner && s.phase[r].Cleaning?
    case LogTimedOut(r) => r in s.phase && s.phase[r].Reporting?
    case Abort(r) => r in s.phase && Live(s.phase[r])
    case Resolve(c, user, _) => c !in s.calls && user in s.gate.pending && s.gate.pending[user] in s.gate.objects
    case Advance(c) =>
      c in s.calls && s.calls[c].target in s.gate.objects && s.calls[c].target in s.owner &&
      s.calls[c].stage != Done && !s.calls[c].lost
    case Lose(c) => c in s.calls && s.calls[c].stage != Done && !s.calls[c].lost
    case Ambiguous(_) => true
  }

  function To(s: State, r: nat, p: Phase): State {
    s.(phase := s.phase[r := p])
  }

  function Leaving(s: State, r: nat, result: Decision, timedOut: bool): State
    requires r in s.owner
  {
    To(s, r, Cleaning(result, timedOut)).(gate := Forgotten(s.gate, s.owner[r]))
  }

  function Advanced(s: State, c: nat): State
    requires Enabled(s, Advance(c))
  {
    var call := s.calls[c];
    if call.stage == Deleting then
      s.(calls := s.calls[c := call.(stage := Recording)], rows := s.rows - {s.owner[call.target]})
    else if call.stage == Recording then
      s.(calls := s.calls[c := call.(stage := Waking)], audit := s.audit + [Decided(call.target, call.decision)])
    else
      s.(calls := s.calls[c := call.(stage := Done)], gate := Woken(s.gate, call.target))
  }

  function Next(s: State, a: Action): State
    requires Enabled(s, a)
  {
    match a
    case Begin(r, user) => To(s, r, Starting).(owner := s.owner[r := user])
    case LogRequested(r) => To(s, r, Logged).(audit := s.audit + [Requested(r)])
    case Persist(r) => To(s, r, Stored).(rows := s.rows[s.owner[r] := r])
    case Register(r, prompt) => To(s, r, Publishing).(gate := Registered(s.gate, s.owner[r], r, prompt))
    case Publish(r) => To(s, r, Awaiting)
    case PublishFails(r) => Leaving(s, r, Denied, false)
    case Wake(r) => Leaving(s, r, Outcome(s.gate, r), false).(woken := s.woken + {r})
    case TimeOut(r) => Leaving(s, r, Denied, true)
    case DeleteRow(r) =>
      var p := s.phase[r];
      To(s, r, if p.timedOut then Reporting(p.result) else Returned(p.result)).(rows := s.rows - {s.owner[r]})
    case LogTimedOut(r) => To(s, r, Returned(s.phase[r].result)).(audit := s.audit + [TimedOut(r)])
    case Abort(r) => To(s, r, Aborted)
    case Resolve(c, user, d) =>
      var r := s.gate.pending[user];
      s.(calls := s.calls[c := Call(r, d, Deleting, false)], gate := Marked(s.gate, r, d), sets := s.sets + [(r, d)])
    case Advance(c) => Advanced(s, c)
    case Lose(c) => s.(calls := s.calls[c := s.calls[c].(lost := true)])
    case Ambiguous(user) => s.(gate := Reprompted(s.gate, user))
  }

  predicate Legal(s: State, run: seq<Action>)
    decreases |run|
  {
    run == [] || (Enabled(s, run[0]) && Legal(Next(s, run[0]), run[1..]))
  }

  function Exec(s: State, run: seq<Action>): State
    requires Legal(s, run)
    decreases |run|
  {
    if run == [] then s else Exec(Next(s, run[0]), run[1..])
  }

  // The decision stored last on request r.
  function LastSet(sets: seq<(nat, Decision)>, r: nat): Option<Decision> {
    if sets == [] then None
    else if sets[|sets| - 1].0 == r then Some(sets[|sets| - 1].1)
    else LastSet(sets[..|sets| - 1], r)
  }

  ghost predicate WasDecided(audit: seq<Audit>, r: nat) {
    exists d :: Decided(r, d) in audit
  }

  // "decided" and "timed out" records come after the "requested" one.
  ghost predicate AuditOrdered(audit: seq<Audit>) {
    forall i :: 0 <= i < |audit| && !audit[i].Requested? ==> Requested(audit[i].r) in audit[..i]
  }

  // A reply stored d on r; it also wrote its record; some reply to r wrote one.
  ghost predicate Replied(calls: map<nat, Call>, r: nat, d: Decision) {
    exists c :: c in calls && calls[c].target == r && calls[c].decision == d
  }

  ghost predicate Written(calls: map<nat, Call>, r: nat, d: Decision) {
    exists c :: c in calls && calls[c].target == r && calls[c].decision == d && Recorded(calls[c])
  }

  ghost predicate Heard(calls: map<nat, Call>, r: nat) {
    exists c :: c in calls && calls[c].target == r && Recorded(calls[c])
  }

  // ---- The invariant of every run --------------------------------------------------

  predicate Early(p: Phase) {
    p.Starting? || p.Logged? || p.Stored?
  }

  // A reply can still reach the request.
  predicate Waits(p: Phase) {
    p.Publishing? || p.Awaiting?
  }

  // The request has its result.
  predicate Over(p: Phase) {
    p.Cleaning? || p.Reporting? || p.Returned?
  }

  ghost predicate StageOk(s: State, r: nat)
    requires r in s.phase
  {
    var p := s.phase[r];
    && (Early(p) ==> r !in s.gate.objects) && (Waits(p) || Over(p) ==> r in s.gate.objects)
    && (!p.Starting? && !p.Aborted? ==> Requested(r) in s.audit)
    && (Early(p) || Waits(p) ==> r !in s.woken)
  }

  ghost predicate ObjectOk(s: State, r: nat) {
    r in s.gate.objects ==>
      var o := s.gate.objects[r];
      && Requested(r) in s.audit && o.reprompts <= MAX_APPROVAL_REPROMPTS
      && o.decision == LastSet(s.sets, r) && (o.event ==> Heard(s.calls, r))
  }

  ghost predicate ResultOk(s: State, r: nat)
    requires r in s.phase
  {
    Over(s.phase[r]) ==>
      if r in s.woken then LastSet(s.sets, r) == Some(s.phase[r].result) && Heard(s.calls, r)
      else s.phase[r].result == Denied
  }

  predicate RowOk(s: State, r: nat)
    requires r in s.phase
  {
    s.phase[r].Returned? || s.phase[r].Reporting? ==> r in s.owner && (s.owner[r] !in s.rows || s.rows[s.owner[r]] != r)
  }

  ghost predicate RequestOk(s: State, r: nat)
    requires r in s.phase
  {
    StageOk(s, r) && ObjectOk(s, r) && ResultOk(s, r) && RowOk(s, r)
  }

  // The gate's entry for the user of r names r.
  predicate Held(s: State, r: nat) {
    r in s.owner && s.owner[r] in s.gate.pending && s.gate.pending[s.owner[r]] == r
  }

  // It registered and its entry is not cleaned up by itself any more or yet: it
  // waits, or its turn was cancelled.
  predicate Standing(s: State, r: nat) {
    r in s.phase && r in s.owner && (Waits(s.phase[r]) || s.phase[r].Aborted?)
  }

  // The request u's entry names is one that registered and has no result yet.
  predicate HoldsOk(s: State, u: string)
    requires u in s.gate.pending
  {
    var r := s.gate.pending[u];
    && r in s.phase && r in s.owner && s.owner[r] == u && r in s.gate.objects
    && (Waits(s.phase[r]) || s.phase[r].Aborted?)
  }

  ghost predicate PendingOk(s: State) {
    forall u :: u in s.gate.pending ==> HoldsOk(s, u)
  }

  ghost predicate CallOk(s: State, c: nat)
    requires c in s.calls
  {
    var call := s.calls[c];
    && call.target in s.gate.objects && call.target in s.phase && (call.target, call.decision) in s.sets
    && (Recorded(call) ==> Decided(call.target, call.decision) in s.audit)
  }

  ghost predicate RecordsOk(s: State) {
    && (forall c :: c in s.calls ==> CallOk(s, c))
    && (forall i :: 0 <= i < |s.audit| && s.audit[i].Decided? ==> Written(s.calls, s.audit[i].r, s.audit[i].decision))
    && (forall i :: 0 <= i < |s.sets| ==> Replied(s.calls, s.sets[i].0, s.sets[i].1))
  }

  ghost predicate TablesOk(s: State) {
    && s.phase.Keys == s.owner.Keys && s.woken <= s.phase.Keys
    && (forall r :: r in s.gate.objects ==> r in s.phase)
  }

  ghost predicate SetsOk(s: State) {
    forall i :: 0 <= i < |s.sets| ==> s.sets[i].0 in s.gate.objects
  }

  ghost predicate RowsOk(s: State) {
    forall u :: u in s.rows ==>
      Owned(s, s.rows[u], u) && !s.phase[s.rows[u]].Starting? && !s.phase[s.rows[u]].Logged?
  }

  ghost predicate Inv(s: State) {
    && (forall r :: r in s.phase ==> RequestOk(s, r))
    && PendingOk(s) && RecordsOk(s) && TablesOk(s) && SetsOk(s) && RowsOk(s) && AuditOrdered(s.audit)
  }

  // ---- What every action does to the records ------------------------------------------

  function LastSetAfter(s: State, a: Action, r: nat): Option<Decision>
    requires Enabled(s, a)
  {
    if a.Resolve? && r == s.gate.pending[a.user] then Some(a.decision) else LastSet(s.sets, r)
  }

  lemma RecordsGrow(s: State, a: Action)
    requires Enabled(s, a)
    ensures s.audit <= Next(s, a).audit && s.sets <= Next(s, a).sets
  {
  }

  lemma LastSetStep(s: State, a: Action, r: nat)
    requires Enabled(s, a)
    ensures LastSet(Next(s, a).sets, r) == LastSetAfter(s, a, r)
  {
    if a.Resolve? {
      assert Next(s, a).sets[..|s.sets|] == s.sets;
    }
  }

  lemma AuditStays(s: State, a: Action, x: Audit)
    requires Enabled(s, a) && x in s.audit
    ensures x in Next(s, a).audit
  {
    RecordsGrow(s, a);
    var i :| 0 <= i < |s.audit| && s.audit[i] == x;
    assert Next(s, a).audit[i] == x;
  }

  lemma SetsStay(s: State, a: Action, x: (nat, Decision))
    requires Enabled(s, a) && x in s.sets
    ensures x in Next(s, a).sets
  {
    RecordsGrow(s, a);
    var i :| 0 <= i < |s.sets| && s.sets[i] == x;
    assert Next(s, a).sets[i] == x;
  }

  lemma CallStays(s: State, a: Action, c: nat)
    requires Enabled(s, a) && c in s.calls
    ensures c in Next(s, a).calls
    ensures var call, call' := s.calls[c], Next(s, a).calls[c];
            call'.target == call.target && call'.decision == call.decision && (Recorded(call) ==> Recorded(call'))
  {
  }

  lemma HeardStays(s: State, a: Action, r: nat)
    requires Enabled(s, a) && Heard(s.calls, r)
    ensures Heard(Next(s, a).calls, r)
  {
    var c :| c in s.calls && s.calls[c].target == r && Recorded(s.calls[c]);
    CallStays(s, a, c);
  }

  lemma WrittenStays(s: State, a: Action, r: nat, d: Decision)
    requires Enabled(s, a) && Written(s.calls, r, d)
    ensures Written(Next(s, a).calls, r, d)
  {
    var c :| c in s.calls && s.calls[c].target == r && s.calls[c].decision == d && Recorded(s.calls[c]);
    CallStays(s, a, c);
  }

  lemma RepliedStays(s: State, a: Action, r: nat, d: Decision)
    requires Enabled(s, a) && Replied(s.calls, r, d)
    ensures Replied(Next(s, a).calls, r, d)
  {
    var c :| c in s.calls && s.calls[c].target == r && s.calls[c].decision == d;
    CallStays(s, a, c);
  }

  // ---- Each part is kept -----------------------------------------------------------------

  lemma StageKept(s: State, a: Action, r: nat)
    requires PendingOk(s) && Enabled(s, a) && r in s.phase && StageOk(s, r)
    ensures r in Next(s, a).phase && StageOk(Next(s, a), r)
  {
    var s' := Next(s, a);
    if Requested(r) in s.audit {
      AuditStays(s, a, Requested(r));
    }
    if a.LogRequested? && a.r == r {
      assert s'.audit[|s.audit|] == Requested(r);
    }
  }

  lemma {:induction false} NeverSet(sets: seq<(nat, Decision)>, r: nat)
    requires forall i :: 0 <= i < |sets| ==> sets[i].0 != r
    ensures LastSet(sets, r) == None
  {
    if sets != [] {
      NeverSet(sets[..|sets| - 1], r);
    }
  }

  lemma ObjectKept(s: State, a: Action, r: nat)
    requires SetsOk(s) && Enabled(s, a) && r in s.phase && StageOk(s, r) && ObjectOk(s, r)
    ensures ObjectOk(Next(s, a), r)
  {
    LastSetStep(s, a, r);
    if Requested(r) in s.audit {
      AuditStays(s, a, Requested(r));
    }
    if Heard(s.calls, r) {
      HeardStays(s, a, r);
    }
    if a.Register? && a.r == r {
      NeverSet(s.sets, r);
    } else if a.Advance? && s.calls[a.c].stage.Waking? {
      WakingHeard(s, a.c);
    }
  }

  lemma WakingHeard(s: State, c: nat)
    requires Enabled(s, Advance(c)) && s.calls[c].stage.Waking?
    ensures Heard(Next(s, Advance(c)).calls, s.calls[c].target)
  {
    assert Recorded(Next(s, Advance(c)).calls[c]);
  }

  lemma {:induction false} SetSome(sets: seq<(nat, Decision)>, i: nat)
    requires i < |sets|
    ensures LastSet(sets, sets[i].0).Some?
  {
    if i < |sets| - 1 {
      SetSome(sets[..|sets| - 1], i);
    }
  }

  lemma {:induction false} LastSetIn(sets: seq<(nat, Decision)>, r: nat)
    requires LastSet(sets, r).Some?
    ensures (r, LastSet(sets, r).value) in sets
  {
    if sets[|sets| - 1].0 != r {
      LastSetIn(sets[..|sets| - 1], r);
    }
  }

  lemma HeardSet(s: State, r: nat)
    requires RecordsOk(s) && Heard(s.calls, r)
    ensures LastSet(s.sets, r).Some?
  {
    var c :| c in s.calls && s.calls[c].target == r && Recorded(s.calls[c]);
    assert CallOk(s, c);
    var i :| 0 <= i < |s.sets| && s.sets[i] == (r, s.calls[c].decision);
    SetSome(s.sets, i);
  }

  lemma WokenResult(s: State, r: nat)
    requires RecordsOk(s) && Enabled(s, Wake(r)) && ObjectOk(s, r)
    ensures ResultOk(Next(s, Wake(r)), r)
  {
    HeardSet(s, r);
  }

  lemma SetElsewhere(s: State, a: Action, r: nat)
    requires PendingOk(s) && Enabled(s, a) && r in s.phase && Over(s.phase[r])
    ensures LastSetAfter(s, a, r) == LastSet(s.sets, r)
  {
    if a.Resolve? {
      assert HoldsOk(s, a.user);
    }
  }

  // A result is final, and only waking gives one that is not DENIED.
  lemma ResultAfter(s: State, a: Action, r: nat)
    requires Enabled(s, a) && r in s.phase && !(a.Wake? && a.r == r)
    ensures r in Next(s, a).phase && (r in Next(s, a).woken <==> r in s.woken)
    ensures Over(Next(s, a).phase[r]) ==>
      if Over(s.phase[r]) then Next(s, a).phase[r].result == s.phase[r].result
      else Waits(s.phase[r]) && Next(s, a).phase[r].result == Denied
  {
  }

  lemma OverKept(s: State, a: Action, r: nat)
    requires PendingOk(s) && Enabled(s, a) && r in s.phase && Over(s.phase[r]) && ResultOk(s, r)
    ensures r in Next(s, a).phase && ResultOk(Next(s, a), r)
  {
    ResultAfter(s, a, r);
    LastSetStep(s, a, r);
    SetElsewhere(s, a, r);
    if Heard(s.calls, r) {
      HeardStays(s, a, r);
    }
  }

  lemma ResultKept(s: State, a: Action, r: nat)
    requires PendingOk(s) && RecordsOk(s) && Enabled(s, a) && r in s.phase && RequestOk(s, r)
    ensures r in Next(s, a).phase && ResultOk(Next(s, a), r)
  {
    if a.Wake? && a.r == r {
      WokenResult(s, r);
    } else if Over(s.phase[r]) {
      OverKept(s, a, r);
    } else {
      ResultAfter(s, a, r);
    }
  }

  lemma RowAfter(s: State, a: Action, u: string)
    requires Enabled(s, a) && u in Next(s, a).rows
    ensures (a.Persist? && Next(s, a).rows[u] == a.r) || (u in s.rows && Next(s, a).rows[u] == s.rows[u])
  {
  }

  lemma RowKept(s: State, a: Action, r: nat)
    requires TablesOk(s) && Enabled(s, a) && r in s.phase && RowOk(s, r)
    ensures r in Next(s, a).phase && RowOk(Next(s, a), r)
  {
    OwnerStays(s, a, r);
    if s.owner[r] in Next(s, a).rows {
      RowAfter(s, a, s.owner[r]);
    }
  }

  lemma RequestKept(s: State, a: Action, r: nat)
    requires PendingOk(s) && RecordsOk(s) && TablesOk(s) && SetsOk(s) && Enabled(s, a)
    requires r in s.phase && RequestOk(s, r)
    ensures r in Next(s, a).phase && RequestOk(Next(s, a), r)
  {
    StageKept(s, a, r);
    ObjectKept(s, a, r);
    ResultKept(s, a, r);
    RowKept(s, a, r);
  }

  lemma BegunOk(s: State, r: nat, u: string)
    requires TablesOk(s) && Enabled(s, Begin(r, u))
    ensures RequestOk(Next(s, Begin(r, u)), r)
  {
  }

  lemma HoldKept(s: State, a: Action, u: string)
    requires Enabled(s, a) && u in s.gate.pending && HoldsOk(s, u)
    requires u in Next(s, a).gate.pending && Next(s, a).gate.pending[u] == s.gate.pending[u]
    ensures HoldsOk(Next(s, a), u)
  {
    var r := s.gate.pending[u];
    OwnerStays(s, a, r);
    ObjectStays(s, a, r);
    StandsOrOut(s, a, r);
  }

  // A step that ends the waiting takes the entry of its user out of the gate.
  lemma StandsOrOut(s: State, a: Action, r: nat)
    requires Enabled(s, a) && Standing(s, r)
    ensures Standing(Next(s, a), r) || s.owner[r] !in Next(s, a).gate.pending
  {
  }

  lemma ObjectStays(s: State, a: Action, r: nat)
    requires Enabled(s, a) && r in s.gate.objects
    ensures r in Next(s, a).gate.objects
  {
  }

  lemma OwnerStays(s: State, a: Action, r: nat)
    requires Enabled(s, a) && r in s.owner
    ensures r in Next(s, a).owner && Next(s, a).owner[r] == s.owner[r]
  {
  }

  lemma PendingKept(s: State, a: Action)
    requires PendingOk(s) && Enabled(s, a)
    ensures PendingOk(Next(s, a))
  {
    var s' := Next(s, a);
    forall u | u in s'.gate.pending
      ensures HoldsOk(s', u)
    {
      if !a.Register? || u != s.owner[a.r] {
        HoldKept(s, a, u);
      }
    }
  }

  lemma CallKept(s: State, a: Action, c: nat)
    requires Enabled(s, a) && c in s.calls && CallOk(s, c)
    ensures CallOk(Next(s, a), c)
  {
    var s', call := Next(s, a), s.calls[c];
    CallStays(s, a, c);
    SetsStay(s, a, (call.target, call.decision));
    if Recorded(call) {
      AuditStays(s, a, Decided(call.target, call.decision));
    } else if Recorded(s'.calls[c]) {
      assert s'.audit[|s.audit|] == Decided(call.target, call.decision);
    }
  }

  lemma NewCall(s: State, a: Action, c: nat)
    requires PendingOk(s) && Enabled(s, a) && c in Next(s, a).calls && c !in s.calls
    ensures CallOk(Next(s, a), c)
  {
    assert HoldsOk(s, a.user);
    assert Next(s, a).sets[|s.sets|] == (s.gate.pending[a.user], a.decision);
  }

  lemma RecordKept(s: State, a: Action, i: nat)
    requires RecordsOk(s) && Enabled(s, a) && i < |Next(s, a).audit| && Next(s, a).audit[i].Decided?
    ensures Written(Next(s, a).calls, Next(s, a).audit[i].r, Next(s, a).audit[i].decision)
  {
    RecordsGrow(s, a);
    var x := Next(s, a).audit[i];
    if i < |s.audit| {
      assert s.audit[i] == x;
      WrittenStays(s, a, x.r, x.decision);
    } else {
      assert Recorded(Next(s, a).calls[a.c]);
    }
  }

  lemma SetKept(s: State, a: Action, i: nat)
    requires RecordsOk(s) && Enabled(s, a) && i < |Next(s, a).sets|
    ensures Replied(Next(s, a).calls, Next(s, a).sets[i].0, Next(s, a).sets[i].1)
  {
    RecordsGrow(s, a);
    var x := Next(s, a).sets[i];
    if i < |s.sets| {
      assert s.sets[i] == x;
      RepliedStays(s, a, x.0, x.1);
    } else {
      assert a.c in Next(s, a).calls;
    }
  }

  lemma RecordsKept(s: State, a: Action)
    requires PendingOk(s) && RecordsOk(s) && Enabled(s, a)
    ensures RecordsOk(Next(s, a))
  {
    var s' := Next(s, a);
    forall c | c in s'.calls
      ensures CallOk(s', c)
    {
      if c in s.calls {
        CallKept(s, a, c);
      } else {
        NewCall(s, a, c);
      }
    }
    forall i | 0 <= i < |s'.audit| && s'.audit[i].Decided?
      ensures Written(s'.calls, s'.audit[i].r, s'.audit[i].decision)
    {
      RecordKept(s, a, i);
    }
    forall i | 0 <= i < |s'.sets|
      ensures Replied(s'.calls, s'.sets[i].0, s'.sets[i].1)
    {
      SetKept(s, a, i);
    }
  }

  lemma TablesKept(s: State, a: Action)
    requires TablesOk(s) && Enabled(s, a)
    ensures TablesOk(Next(s, a))
  {
  }

  lemma SetsKept(s: State, a: Action)
    requires SetsOk(s) && Enabled(s, a)
    ensures SetsOk(Next(s, a))
  {
    var s' := Next(s, a);
    RecordsGrow(s, a);
    assert forall r :: r in s.gate.objects ==> r in s'.gate.objects;
    forall i | 0 <= i < |s'.sets|
      ensures s'.sets[i].0 in s'.gate.objects
    {
      assert i < |s.sets| ==> s'.sets[i] == s.sets[i];
    }
  }

  lemma RowsKept(s: State, a: Action)
    requires RowsOk(s) && Enabled(s, a)
    ensures RowsOk(Next(s, a))
  {
    var s' := Next(s, a);
    forall u | u in s'.rows
      ensures Owned(s', s'.rows[u], u) && !s'.phase[s'.rows[u]].Starting? && !s'.phase[s'.rows[u]].Logged?
    {
      assert u in s.rows || (a.Persist? && u == s.owner[a.r]);
    }
  }

  // Nothing is written, or one record whose request was announced before.
  ghost predicate OneRecord(before: seq<Audit>, after: seq<Audit>) {
    after == before || (
      && |after| == |before| + 1 && before <= after
      && (after[|before|].Requested? || Requested(after[|before|].r) in before))
  }

  lemma NewRecordOk(s: State, a: Action)
    requires Enabled(s, a)
    requires a.LogTimedOut? ==> StageOk(s, a.r)
    requires a.Advance? ==> s.calls[a.c].target in s.phase && ObjectOk(s, s.calls[a.c].target)
    ensures OneRecord(s.audit, Next(s, a).audit)
  {
  }

  lemma OrderKept(before: seq<Audit>, after: seq<Audit>)
    requires AuditOrdered(before) && OneRecord(before, after)
    ensures AuditOrdered(after)
  {
    forall i | 0 <= i < |after| && !after[i].Requested?
      ensures Requested(after[i].r) in after[..i]
    {
      assert after[..i] == if i < |before| then before[..i] else before;
    }
  }

  lemma AuditKept(s: State, a: Action)
    requires RecordsOk(s) && AuditOrdered(s.audit) && Enabled(s, a)
    requires forall r :: r in s.phase ==> RequestOk(s, r)
    ensures AuditOrdered(Next(s, a).audit)
  {
    assert a.LogTimedOut? ==> RequestOk(s, a.r);
    assert a.Advance? ==> CallOk(s, a.c) && RequestOk(s, s.calls[a.c].target);
    NewRecordOk(s, a);
    OrderKept(s.audit, Next(s, a).audit);
  }

  lemma StepKeeps(s: State, a: Action)
    requires Inv(s) && Enabled(s, a)
    ensures Inv(Next(s, a))
  {
    PendingKept(s, a);
    RecordsKept(s, a);
    TablesKept(s, a);
    SetsKept(s, a);
    RowsKept(s, a);
    AuditKept(s, a);
    forall r | r in Next(s, a).phase
      ensures RequestOk(Next(s, a), r)
    {
      if r in s.phase {
        RequestKept(s, a, r);
      } else {
        BegunOk(s, r, a.user);
      }
    }
  }

  lemma {:induction false} RunKeeps(s: State, run: seq<Action>)
    requires Inv(s) && Legal(s, run)
    ensures Inv(Exec(s, run))
    decreases |run|
  {
    if run != [] {
      StepKeeps(s, run[0]);
      RunKeeps(Next(s, run[0]), run[1..]);
    }
  }

  lemma {:induction false} WokenIff(s: State, run: seq<Action>, r: nat)
    requires Legal(s, run)
    ensures r in Exec(s, run).woken <==> r in s.woken || Wake(r) in run
    decreases |run|
  {
    if run != [] {
      WokenIff(Next(s, run[0]), run[1..], r);
      assert run == [run[0]] + run[1..];
      assert r in Next(s, run[0]).woken <==> r in s.woken || run[0] == Wake(r);
    }
  }

  // ---- What a request returns, and what the audit says about it -------------------------

  predicate Has(s: State, r: nat, result: Decision) {
    r in s.phase && Over(s.phase[r]) && s.phase[r].result == result
  }

  // A request that a reply woke returns the decision stored last on it, and a
  // "decided" record of it was written by then; any other returns DENIED.
  lemma OnlyDecidedReturns(run: seq<Action>, r: nat, result: Decision)
    requires Legal(Init, run) && Has(Exec(Init, run), r, result)
    ensures Wake(r) in run ==> LastSet(Exec(Init, run).sets, r) == Some(result) && WasDecided(Exec(Init, run).audit, r)
    ensures Wake(r) !in run ==> result == Denied
  {
    RunKeeps(Init, run);
    WokenIff(Init, run, r);
    var s := Exec(Init, run);
    assert RequestOk(s, r);
    if Wake(r) in run {
      var c :| c in s.calls && s.calls[c].target == r && Recorded(s.calls[c]);
      assert CallOk(s, c);
    }
  }

  lemma InAuditIff(s: State, r: nat, d: Decision)
    requires RecordsOk(s)
    ensures Decided(r, d) in s.audit <==> Written(s.calls, r, d)
  {
    if Decided(r, d) in s.audit {
      var i :| 0 <= i < |s.audit| && s.audit[i] == Decided(r, d);
    }
    if Written(s.calls, r, d) {
      var c :| c in s.calls && s.calls[c].target == r && s.calls[c].decision == d && Recorded(s.calls[c]);
      assert CallOk(s, c);
    }
  }

  lemma StoredIff(s: State, r: nat, d: Decision)
    requires RecordsOk(s)
    ensures (r, d) in s.sets <==> Replied(s.calls, r, d)
  {
    if (r, d) in s.sets {
      var i :| 0 <= i < |s.sets| && s.sets[i] == (r, d);
    }
    if Replied(s.calls, r, d) {
      var c :| c in s.calls && s.calls[c].target == r && s.calls[c].decision == d;
      assert CallOk(s, c);
    }
  }

  // From the moment a request has its result: a "decided" record names it if and
  // only if one was written by a reply with the decision that was stored last
  // before a reply woke the request, or, where none did, by a reply that said no.
  lemma RecordNamesResult(run: seq<Action>, r: nat, result: Decision)
    requires Legal(Init, run) && Has(Exec(Init, run), r, result)
    ensures var s := Exec(Init, run);
            Decided(r, result) in s.audit <==>
              exists c :: c in s.calls && s.calls[c].target == r && Recorded(s.calls[c])
                       && Some(s.calls[c].decision) == if Wake(r) in run then LastSet(s.sets, r) else Some(Denied)
  {
    RunKeeps(Init, run);
    OnlyDecidedReturns(run, r, result);
    InAuditIff(Exec(Init, run), r, result);
  }

  // When every reply ran to its end: exactly the timeout or the failed prompt that
  // overtook a reply with another decision leaves the audit without the result.
  lemma FinishedRepliesAreNamed(run: seq<Action>, r: nat, result: Decision)
    requires Legal(Init, run) && Has(Exec(Init, run), r, result)
    requires forall c :: c in Exec(Init, run).calls && Exec(Init, run).calls[c].target == r ==> Exec(Init, run).calls[c].stage.Done?
    ensures Decided(r, result) in Exec(Init, run).audit <==> Wake(r) in run || (r, Denied) in Exec(Init, run).sets
  {
    RunKeeps(Init, run);
    OnlyDecidedReturns(run, r, result);
    var s := Exec(Init, run);
    InAuditIff(s, r, result);
    StoredIff(s, r, result);
    if Wake(r) in run {
      LastSetIn(s.sets, r);
    }
    FinishedWrite(s, r, result);
  }

  lemma FinishedWrite(s: State, r: nat, d: Decision)
    requires forall c :: c in s.calls && s.calls[c].target == r ==> s.calls[c].stage.Done?
    ensures Written(s.calls, r, d) <==> Replied(s.calls, r, d)
  {
    if Replied(s.calls, r, d) {
      var c :| c in s.calls && s.calls[c].target == r && s.calls[c].decision == d;
      assert Recorded(s.calls[c]);
    }
  }

  lemma AgreedNamed(s: State, r: nat, result: Decision)
    requires RecordsOk(s) && (forall d, e :: (r, d) in s.sets && (r, e) in s.sets ==> d == e)
    requires LastSet(s.sets, r) == Some(result) && WasDecided(s.audit, r)
    ensures Decided(r, result) in s.audit
  {
    var d :| Decided(r, d) in s.audit;
    RecordedWasStored(s, r, d);
    LastSetIn(s.sets, r);
  }

  // When the replies agree, finished or not: the audit names the result exactly if
  // a reply woke the request, or a reply said no and wrote so.
  lemma AgreedDecisionIsRecorded(run: seq<Action>, r: nat, result: Decision)
    requires Legal(Init, run) && Has(Exec(Init, run), r, result)
    requires forall d, e :: (r, d) in Exec(Init, run).sets && (r, e) in Exec(Init, run).sets ==> d == e
    ensures Decided(r, result) in Exec(Init, run).audit <==> Wake(r) in run || Decided(r, Denied) in Exec(Init, run).audit
  {
    RunKeeps(Init, run);
    OnlyDecidedReturns(run, r, result);
    if Wake(r) in run {
      AgreedNamed(Exec(Init, run), r, result);
    }
  }

  lemma RecordedWasStored(s: State, r: nat, d: Decision)
    requires RecordsOk(s) && Decided(r, d) in s.audit
    ensures (r, d) in s.sets
  {
    InAuditIff(s, r, d);
    var c :| c in s.calls && s.calls[c].target == r && s.calls[c].decision == d && Recorded(s.calls[c]);
    assert CallOk(s, c);
  }

  // In the audit log no decision and no timeout precedes its request.
  lemma AuditInOrder(run: seq<Action>)
    requires Legal(Init, run)
    ensures AuditOrdered(Exec(Init, run).audit)
  {
    RunKeeps(Init, run);
  }

  lemma RepromptsBounded(run: seq<Action>, r: nat)
    requires Legal(Init, run) && r in Exec(Init, run).gate.objects
    ensures Exec(Init, run).gate.objects[r].reprompts <= 2
  {
    RunKeeps(Init, run);
    assert RequestOk(Exec(Init, run), r);
  }

  // A request that returned holds neither the gate nor a row.
  lemma ReturnedIsClean(run: seq<Action>, r: nat, u: string)
    requires Legal(Init, run) && r in Exec(Init, run).phase && Exec(Init, run).phase[r].Returned?
    ensures var s := Exec(Init, run);
            && (u in s.gate.pending ==> s.gate.pending[u] != r)
            && (u in s.rows ==> s.rows[u] != r)
  {
    RunKeeps(Init, run);
    var s := Exec(Init, run);
    assert RequestOk(s, r);
    assert u in s.gate.pending ==> HoldsOk(s, u);
    assert u in s.rows ==> Owned(s, s.rows[u], u);
  }

  // ---- Whose row is stored --------------------------------------------------------------

  // The user's row is that of r.
  predicate RowNames(s: State, r: nat) {
    r in s.owner && s.owner[r] in s.rows && s.rows[s.owner[r]] == r
  }

  // A request of u writes or deletes the row of u, or a reply to one deletes it.
  predicate Touches(s: State, a: Action, u: string) {
    match a
    case Persist(q) => q in s.owner && s.owner[q] == u
    case DeleteRow(q) => q in s.owner && s.owner[q] == u
    case Advance(c) =>
      && c in s.calls && s.calls[c].stage == Deleting
      && s.calls[c].target in s.owner && s.owner[s.calls[c].target] == u
    case _ => false
  }

  predicate Untouched(s: State, run: seq<Action>, u: string)
    requires Legal(s, run)
    decreases |run|
  {
    run != [] ==> !Touches(s, run[0], u) && Untouched(Next(s, run[0]), run[1..], u)
  }

  // r persists its row at some point of the run, after which nothing touches it.
  predicate PersistsLast(s: State, run: seq<Action>, r: nat)
    requires Legal(s, run)
    decreases |run|
  {
    run != [] &&
    ((run[0] == Persist(r) && r in s.owner && Untouched(Next(s, run[0]), run[1..], s.owner[r])) ||
     PersistsLast(Next(s, run[0]), run[1..], r))
  }

  lemma RowStep(s: State, a: Action, r: nat)
    requires Enabled(s, a) && r in s.owner
    ensures r in Next(s, a).owner && Next(s, a).owner[r] == s.owner[r]
    ensures RowNames(Next(s, a), r) <==> a == Persist(r) || (RowNames(s, r) && !Touches(s, a, s.owner[r]))
  {
    OwnerStays(s, a, r);
    RowStays(s, a, s.owner[r]);
  }

  lemma RowStays(s: State, a: Action, u: string)
    requires Enabled(s, a)
    ensures !Touches(s, a, u) ==> (u in Next(s, a).rows <==> u in s.rows) && (u in s.rows ==> Next(s, a).rows[u] == s.rows[u])
    ensures Touches(s, a, u) && a.Persist? ==> u in Next(s, a).rows && Next(s, a).rows[u] == a.r
    ensures Touches(s, a, u) && !a.Persist? ==> u !in Next(s, a).rows
  {
  }

  lemma FreshRow(s: State, a: Action, r: nat)
    requires TablesOk(s) && RowsOk(s) && Enabled(s, a) && r !in s.owner
    ensures !RowNames(Next(s, a), r)
  {
    if RowNames(Next(s, a), r) {
      RowAfter(s, a, Next(s, a).owner[r]);
    }
  }

  lemma {:induction false} RowRun(s: State, run: seq<Action>, r: nat)
    requires Legal(s, run) && r in s.owner
    ensures RowNames(Exec(s, run), r) <==> PersistsLast(s, run, r) || (RowNames(s, r) && Untouched(s, run, s.owner[r]))
    decreases |run|
  {
    if run != [] {
      RowStep(s, run[0], r);
      RowRun(Next(s, run[0]), run[1..], r);
    }
  }

  lemma {:induction false} RowOf(s: State, run: seq<Action>, r: nat)
    requires Inv(s) && Legal(s, run) && r !in s.owner
    ensures RowNames(Exec(s, run), r) <==> PersistsLast(s, run, r)
    decreases |run|
  {
    if run != [] {
      StepKeeps(s, run[0]);
      FreshRow(s, run[0], r);
      if r in Next(s, run[0]).owner {
        RowRun(Next(s, run[0]), run[1..], r);
      } else {
        RowOf(Next(s, run[0]), run[1..], r);
      }
    }
  }

  // In every run the stored row of a user is that of r if and only if r persisted it
  // and since then no request of the user has written or deleted its row and no reply
  // to one has deleted it.
  lemma RowIffPersistsLast(run: seq<Action>, r: nat)
    requires Legal(Init, run)
    ensures RowNames(Exec(Init, run), r) <==> PersistsLast(Init, run, r)
  {
    RowOf(Init, run, r);
  }

  // ---- Which request the gate holds -----------------------------------------------------

  // Another request of the same user registers or cleans up.
  predicate Takes(s: State, a: Action, r: nat) {
    && (a.Register? || a.PublishFails? || a.Wake? || a.TimeOut?)
    && a.r != r && a.r in s.owner && r in s.owner && s.owner[a.r] == s.owner[r]
  }

  // For one step: a request that stands and is held stays so unless it is taken.
  lemma HeldStepIff(s: State, a: Action, r: nat)
    requires Enabled(s, a) && Standing(s, r) && Held(s, r) && Standing(Next(s, a), r)
    ensures Held(Next(s, a), r) <==> !Takes(s, a, r)
  {
  }

  lemma NotHeldAgain(s: State, a: Action, r: nat)
    requires Enabled(s, a) && Standing(s, r) && !Held(s, r)
    ensures !Held(Next(s, a), r)
  {
  }

  predicate Untaken(s: State, run: seq<Action>, r: nat)
    requires Legal(s, run)
    decreases |run|
  {
    run != [] ==> !Takes(s, run[0], r) && Untaken(Next(s, run[0]), run[1..], r)
  }

  // r has no result at any point of the run.
  predicate Stands(s: State, run: seq<Action>, r: nat)
    requires Legal(s, run)
    decreases |run|
  {
    Standing(s, r) && (run != [] ==> Stands(Next(s, run[0]), run[1..], r))
  }

  lemma {:induction false} NotHeldRun(s: State, run: seq<Action>, r: nat)
    requires Legal(s, run) && !Held(s, r) && Stands(s, run, r)
    ensures !Held(Exec(s, run), r)
    decreases |run|
  {
    if run != [] {
      NotHeldAgain(s, run[0], r);
      NotHeldRun(Next(s, run[0]), run[1..], r);
    }
  }

  // From the moment a request registered, and for as long as it has no result, the
  // gate holds it if and only if no other request of its user has registered or
  // cleaned up since.  This is also true of a request whose turn was cancelled.
  lemma {:induction false} HeldIffUntaken(s: State, run: seq<Action>, r: nat)
    requires Legal(s, run) && Held(s, r) && Stands(s, run, r)
    ensures Held(Exec(s, run), r) <==> Untaken(s, run, r)
    decreases |run|
  {
    if run != [] {
      HeldStepIff(s, run[0], r);
      if Takes(s, run[0], r) {
        NotHeldRun(Next(s, run[0]), run[1..], r);
      } else {
        HeldIffUntaken(Next(s, run[0]), run[1..], r);
      }
    }
  }

  // Every request a reply can still reach is the one the gate holds for its user.
  ghost predicate Reachable(s: State) {
    forall r :: r in s.phase && Waits(s.phase[r]) ==> Held(s, r)
  }

  // Reachability is lost in exactly the steps that register or clean up a request
  // while another one of the same user is being published or waited on.
  lemma ReachableIff(s: State, a: Action)
    requires TablesOk(s) && Reachable(s) && Enabled(s, a)
    ensures Reachable(Next(s, a)) <==> !exists r :: r in s.phase && Waits(s.phase[r]) && Takes(s, a, r)
  {
    var s' := Next(s, a);
    forall r | r in s'.phase && Waits(s'.phase[r])
      ensures Held(s', r) <==> !(r in s.phase && Waits(s.phase[r]) && Takes(s, a, r))
    {
      WaitsAfter(s, a, r);
    }
    forall r | r in s.phase && Waits(s.phase[r]) && Takes(s, a, r)
      ensures r in s'.phase && Waits(s'.phase[r])
    {
    }
  }

  lemma WaitsAfter(s: State, a: Action, r: nat)
    requires TablesOk(s) && Reachable(s) && Enabled(s, a) && r in Next(s, a).phase && Waits(Next(s, a).phase[r])
    ensures Held(Next(s, a), r) <==> !(r in s.phase && Waits(s.phase[r]) && Takes(s, a, r))
  {
    if a.Register? && a.r == r {
      assert Held(Next(s, a), r);
    } else {
      assert r in s.phase && Waits(s.phase[r]) && Held(s, r) && Standing(s, r);
      HeldStepIff(s, a, r);
    }
  }

  // A cancelled turn leaves its request in the gate exactly when it was held there.
  lemma CancelledHeldIff(s: State, r: nat)
    requires PendingOk(s) && Enabled(s, Abort(r))
    ensures Held(Next(s, Abort(r)), r) <==> Waits(s.phase[r]) && Held(s, r)
  {
    assert Held(s, r) ==> HoldsOk(s, s.owner[r]);
  }

  // ---- One outstanding request per user --------------------------------------------------

  ghost predicate Idle(s: State, u: string) {
    forall r :: Owned(s, r, u) ==> !Live(s.phase[r])
  }

  ghost predicate Alone(s: State, a: Action) {
    a.Begin? ==> Idle(s, a.user)
  }

  ghost predicate OneAtATime(s: State, run: seq<Action>)
    requires Legal(s, run)
    decreases |run|
  {
    run != [] ==> Alone(s, run[0]) && OneAtATime(Next(s, run[0]), run[1..])
  }

  // No two live requests share a user.
  ghost predicate Unshared(s: State) {
    forall q, r :: q in s.phase && r in s.phase && Live(s.phase[q]) && Live(s.phase[r]) && q != r ==>
      q in s.owner && r in s.owner && s.owner[q] != s.owner[r]
  }

  lemma WasLive(s: State, a: Action, r: nat)
    requires Enabled(s, a) && r in Next(s, a).phase && Live(Next(s, a).phase[r]) && !(a.Begin? && r == a.r)
    ensures r in s.phase && Live(s.phase[r])
  {
  }

  lemma PairKept(s: State, a: Action, q: nat, r: nat)
    requires TablesOk(s) && Unshared(s) && Enabled(s, a) && Alone(s, a)
    requires var s' := Next(s, a); q in s'.phase && r in s'.phase && Live(s'.phase[q]) && Live(s'.phase[r]) && q != r
    requires !(a.Begin? && r == a.r)
    ensures var s' := Next(s, a); q in s'.owner && r in s'.owner && s'.owner[q] != s'.owner[r]
  {
    WasLive(s, a, r);
    OwnerStays(s, a, r);
    if a.Begin? && q == a.r {
      assert !Owned(s, r, a.user);
    } else {
      WasLive(s, a, q);
      OwnerStays(s, a, q);
    }
  }

  lemma UnsharedKept(s: State, a: Action)
    requires TablesOk(s) && Unshared(s) && Enabled(s, a) && Alone(s, a)
    ensures Unshared(Next(s, a))
  {
    var s' := Next(s, a);
    forall q, r | q in s'.phase && r in s'.phase && Live(s'.phase[q]) && Live(s'.phase[r]) && q != r
      ensures q in s'.owner && r in s'.owner && s'.owner[q] != s'.owner[r]
    {
      if a.Begin? && r == a.r {
        PairKept(s, a, r, q);
      } else {
        PairKept(s, a, q, r);
      }
    }
  }

  lemma NoOneTakes(s: State, a: Action, r: nat)
    requires Unshared(s) && Enabled(s, a) && r in s.phase && Waits(s.phase[r])
    ensures !Takes(s, a, r)
  {
    if a.Register? || a.PublishFails? || a.Wake? || a.TimeOut? {
      assert Live(s.phase[a.r]);
    }
  }

  lemma ReachableKept(s: State, a: Action)
    requires TablesOk(s) && Unshared(s) && Reachable(s) && Enabled(s, a)
    ensures Reachable(Next(s, a))
  {
    ReachableIff(s, a);
    forall r | r in s.phase && Waits(s.phase[r])
      ensures !Takes(s, a, r)
    {
      NoOneTakes(s, a, r);
    }
  }

  lemma {:induction false} ReachableRun(s: State, run: seq<Action>)
    requires Inv(s) && Unshared(s) && Reachable(s) && Legal(s, run) && OneAtATime(s, run)
    ensures Inv(Exec(s, run)) && Reachable(Exec(s, run)) && Unshared(Exec(s, run))
    decreases |run|
  {
    if run != [] {
      StepKeeps(s, run[0]);
      UnsharedKept(s, run[0]);
      ReachableKept(s, run[0]);
      ReachableRun(Next(s, run[0]), run[1..]);
    }
  }

  lemma IdleHoldsCancelled(s: State, u: string)
    requires PendingOk(s) && u in s.gate.pending && Idle(s, u)
    ensures At(s, s.gate.pending[u], Aborted)
  {
    assert HoldsOk(s, u) && Owned(s, s.gate.pending[u], u);
  }

  // With one outstanding request per user, a request that is being published or
  // waited on is the one a reply reaches, and when none is left the gate holds at
  // most a request whose turn was cancelled.
  lemma RepliesReachTheirRequest(run: seq<Action>)
    requires Legal(Init, run) && OneAtATime(Init, run)
    ensures var s := Exec(Init, run);
            && Reachable(s)
            && (forall u :: u in s.gate.pending && Idle(s, u) ==> At(s, s.gate.pending[u], Aborted))
  {
    ReachableRun(Init, run);
    var s := Exec(Init, run);
    forall u | u in s.gate.pending && Idle(s, u)
      ensures At(s, s.gate.pending[u], Aborted)
    {
      IdleHoldsCancelled(s, u);
    }
  }

  // The requests of a user of which one is live.
  predicate Outstanding(s: State, r: nat) {
    r in s.phase && r in s.owner && (s.phase[r].Stored? || Waits(s.phase[r]))
  }

  // No reply deletes the row of u.
  predicate NoReplyDeletes(s: State, run: seq<Action>, u: string)
    requires Legal(s, run)
    decreases |run|
  {
    run != [] ==> !(run[0].Advance? && Touches(s, run[0], u)) && NoReplyDeletes(Next(s, run[0]), run[1..], u)
  }

  lemma OnlyRepliesTouch(s: State, a: Action, r: nat)
    requires Unshared(s) && Enabled(s, a) && Outstanding(s, r)
    ensures Touches(s, a, s.owner[r]) ==> a.Advance?
  {
    if a.Persist? || a.DeleteRow? {
      assert Live(s.phase[a.r]) && Live(s.phase[r]);
    }
  }

  lemma WasOutstanding(s: State, a: Action, r: nat)
    requires Enabled(s, a) && r in s.phase && Outstanding(Next(s, a), r) && a != Persist(r)
    ensures Outstanding(s, r)
  {
  }

  lemma {:induction false} OutstandingRun(s: State, run: seq<Action>, r: nat)
    requires Inv(s) && Unshared(s) && Legal(s, run) && OneAtATime(s, run)
    requires r in s.phase && !s.phase[r].Starting? && !s.phase[r].Logged? && Outstanding(Exec(s, run), r)
    ensures r in s.owner && (Untouched(s, run, s.owner[r]) <==> NoReplyDeletes(s, run, s.owner[r]))
    decreases |run|
  {
    if run != [] {
      var s' := Next(s, run[0]);
      StepKeeps(s, run[0]);
      UnsharedKept(s, run[0]);
      OwnerStays(s, run[0], r);
      PastLogged(s, run[0], r);
      OutstandingRun(s', run[1..], r);
      StaysOutstanding(s', run[1..], r);
      WasOutstanding(s, run[0], r);
      OnlyRepliesTouch(s, run[0], r);
    }
  }

  lemma PastLogged(s: State, a: Action, r: nat)
    requires Enabled(s, a) && r in s.phase && !s.phase[r].Starting? && !s.phase[r].Logged?
    ensures a != Persist(r) && r in Next(s, a).phase && !Next(s, a).phase[r].Starting? && !Next(s, a).phase[r].Logged?
  {
  }

  lemma {:induction false} StaysOutstanding(s: State, run: seq<Action>, r: nat)
    requires TablesOk(s) && Legal(s, run)
    requires r in s.phase && !s.phase[r].Starting? && !s.phase[r].Logged? && Outstanding(Exec(s, run), r)
    ensures Outstanding(s, r)
    decreases |run|
  {
    if run != [] {
      TablesKept(s, run[0]);
      PastLogged(s, run[0], r);
      StaysOutstanding(Next(s, run[0]), run[1..], r);
      WasOutstanding(s, run[0], r);
    }
  }

  // With one outstanding request per user: from the moment it is persisted and for as
  // long as it is published or waited on, a request has its row until the first reply,
  // to it or to an earlier request of its user, that deletes it.
  lemma WaitingHasItsRow(before: seq<Action>, r: nat, after: seq<Action>)
    requires Legal(Init, before) && OneAtATime(Init, before) && Enabled(Exec(Init, before), Persist(r))
    requires var s := Next(Exec(Init, before), Persist(r)); Legal(s, after) && OneAtATime(s, after) && Outstanding(Exec(s, after), r)
    ensures var s := Next(Exec(Init, before), Persist(r));
            RowNames(Exec(s, after), r) <==> NoReplyDeletes(s, after, s.owner[r])
  {
    var s := Exec(Init, before);
    ReachableRun(Init, before);
    StepKeeps(s, Persist(r));
    UnsharedKept(s, Persist(r));
    RowStep(s, Persist(r), r);
    OutstandingRun(Next(s, Persist(r)), after, r);
    RowRun(Next(s, Persist(r)), after, r);
    NotAgain(Next(s, Persist(r)), after, r);
  }

  lemma {:induction false} NotAgain(s: State, run: seq<Action>, r: nat)
    requires Legal(s, run) && r in s.phase && !s.phase[r].Starting? && !s.phase[r].Logged?
    ensures !PersistsLast(s, run, r)
    decreases |run|
  {
    if run != [] {
      PastLogged(s, run[0], r);
      NotAgain(Next(s, run[0]), run[1..], r);
    }
  }

  // ---- Where the hypotheses are needed ---------------------------------------------

  lemma {:induction false} OneMore(s: State, run: seq<Action>, a: Action)
    requires Legal(s, run) && Enabled(Exec(s, run), a)
    ensures Legal(s, run + [a]) && Exec(s, run + [a]) == Next(Exec(s, run), a)
    decreases |run|
  {
    if run == [] {
      assert (run + [a])[1..] == [];
    } else {
      OneMore(Next(s, run[0]), run[1..], a);
      assert (run + [a])[1..] == run[1..] + [a];
    }
  }

  // A request on its way from nothing to waiting for the user.
  lemma Asked(before: seq<Action>, r: nat, u: string) returns (run: seq<Action>)
    requires Legal(Init, before) && r !in Exec(Init, before).phase && r !in Exec(Init, before).owner
    ensures Legal(Init, run) && At(Exec(Init, run), r, Awaiting)
    ensures var s, s' := Exec(Init, before), Exec(Init, run);
            && s'.gate == Registered(s.gate, u, r, "") && s'.phase == s.phase[r := Awaiting] && s'.owner == s.owner[r := u]
            && s'.calls == s.calls && s'.sets == s.sets && s'.audit == s.audit + [Requested(r)]
  {
    var s := Exec(Init, before);
    run := Prepared(before, r, u);
    OneMore(Init, run, Register(r, ""));
    run := run + [Register(r, "")];
    OneMore(Init, run, Publish(r));
    run := run + [Publish(r)];
    assert Exec(Init, run).phase == s.phase[r := Awaiting];
  }

  lemma Prepared(before: seq<Action>, r: nat, u: string) returns (run: seq<Action>)
    requires Legal(Init, before) && r !in Exec(Init, before).phase && r !in Exec(Init, before).owner
    ensures Legal(Init, run)
    ensures var s, s' := Exec(Init, before), Exec(Init, run);
            && s'.gate == s.gate && s'.phase == s.phase[r := Stored] && s'.owner == s.owner[r := u]
            && s'.calls == s.calls && s'.sets == s.sets && s'.audit == s.audit + [Requested(r)]
  {
    var s := Exec(Init, before);
    OneMore(Init, before, Begin(r, u));
    run := before + [Begin(r, u)];
    OneMore(Init, run, LogRequested(r));
    run := run + [LogRequested(r)];
    OneMore(Init, run, Persist(r));
    run := run + [Persist(r)];
    assert Exec(Init, run).phase == s.phase[r := Stored];
  }

  // A cancelled turn leaves its request in the gate.
  lemma CancelledStays() returns (run: seq<Action>)
    ensures Legal(Init, run) && Idle(Exec(Init, run), "u") && "u" in Exec(Init, run).gate.pending
  {
    run := Asked([], 0, "u");
    OneMore(Init, run, Abort(0));
    run := run + [Abort(0)];
  }

  // Two outstanding requests of one user: when the first times out it takes the
  // second out of the gate, which then waits where no reply can reach it.
  lemma TwoOutstanding() returns (run: seq<Action>)
    ensures Legal(Init, run) && At(Exec(Init, run), 1, Awaiting) && Exec(Init, run).gate.pending == map[]
  {
    run := Asked([], 0, "u");
    run := Asked(run, 1, "u");
    OneMore(Init, run, TimeOut(0));
    run := run + [TimeOut(0)];
    assert Exec(Init, run).gate.pending == map[];
  }

  // Two replies that overlap: the record says approved, the request returns
  // interrupted, because the second decision was stored before the first reply
  // woke the request and has not reached its own record yet.
  lemma OverlappingReplies() returns (run: seq<Action>)
    ensures Legal(Init, run) && At(Exec(Init, run), 0, Returned(Interrupted))
    ensures Exec(Init, run).audit == [Requested(0), Decided(0, Approved)]
  {
    run := FirstReply();
    OneMore(Init, run, Resolve(1, "u", Interrupted));
    run := run + [Resolve(1, "u", Interrupted)];
    OneMore(Init, run, Advance(0));
    run := run + [Advance(0)];
    OneMore(Init, run, Wake(0));
    run := run + [Wake(0)];
    OneMore(Init, run, DeleteRow(0));
    run := run + [DeleteRow(0)];
  }

  lemma FirstStored() returns (run: seq<Action>)
    ensures Legal(Init, run) && At(Exec(Init, run), 0, Awaiting)
    ensures var s := Exec(Init, run);
            && s.gate.pending == map["u" := 0] && 0 in s.gate.objects && s.owner == map[0 := "u"]
            && s.calls == map[0 := Call(0, Approved, Deleting, false)] && s.audit == [Requested(0)]
  {
    run := Asked([], 0, "u");
    OneMore(Init, run, Resolve(0, "u", Approved));
    run := run + [Resolve(0, "u", Approved)];
  }

  lemma FirstDeleted() returns (run: seq<Action>)
    ensures Legal(Init, run) && At(Exec(Init, run), 0, Awaiting)
    ensures var s := Exec(Init, run);
            && s.gate.pending == map["u" := 0] && 0 in s.gate.objects && s.owner == map[0 := "u"]
            && s.calls == map[0 := Call(0, Approved, Recording, false)] && s.audit == [Requested(0)]
  {
    run := FirstStored();
    OneMore(Init, run, Advance(0));
    run := run + [Advance(0)];
  }

  lemma FirstReply() returns (run: seq<Action>)
    ensures Legal(Init, run) && At(Exec(Init, run), 0, Awaiting)
    ensures var s := Exec(Init, run);
            && s.gate.pending == map["u" := 0] && 0 in s.gate.objects && s.owner == map[0 := "u"]
            && s.calls == map[0 := Call(0, Approved, Waking, false)] && s.audit == [Requested(0), Decided(0, Approved)]
  {
    run := FirstDeleted();
    OneMore(Init, run, Advance(0));
    run := run + [Advance(0)];
  }

  // One reply is enough: the timeout overtakes it between the stored decision and
  // its record, and the audit says approved and then timed out.
  lemma OvertakenReply() returns (run: seq<Action>)
    ensures Legal(Init, run) && At(Exec(Init, run), 0, Returned(Denied))
    ensures Exec(Init, run).audit == [Requested(0), Decided(0, Approved), TimedOut(0)]
  {
    run := Overtaken();
    OneMore(Init, run, DeleteRow(0));
    run := run + [DeleteRow(0)];
    OneMore(Init, run, LogTimedOut(0));
    run := run + [LogTimedOut(0)];
  }

  lemma Overtaken() returns (run: seq<Action>)
    ensures Legal(Init, run) && At(Exec(Init, run), 0, Cleaning(Denied, true))
    ensures Exec(Init, run).audit == [Requested(0), Decided(0, Approved)]
  {
    run := FirstStored();
    OneMore(Init, run, TimeOut(0));
    run := run + [TimeOut(0)];
    OneMore(Init, run, Advance(0));
    run := run + [Advance(0)];
    OneMore(Init, run, Advance(0));
    run := run + [Advance(0)];
  }

  // ---- Re-prompts, counted ---------------------------------------------------------------

  // An ambiguous reply of a user whose entry names r.
  predicate Reaches(s: State, a: Action, r: nat) {
    a.Ambiguous? && a.user in s.gate.pending && s.gate.pending[a.user] == r
  }

  // How many ambiguous replies reach the gate while it holds r.
  function AmbiguousTo(s: State, run: seq<Action>, r: nat): nat
    requires Legal(s, run)
    decreases |run|
  {
    if run == [] then 0
    else
      (if Reaches(s, run[0], r) then 1 else 0) + AmbiguousTo(Next(s, run[0]), run[1..], r)
  }

  function AtMostTwo(n: nat): nat {
    if n <= 2 then n else 2
  }

  lemma RepromptStep(s: State, a: Action, r: nat)
    requires Enabled(s, a) && r in s.gate.objects && r in s.phase && StageOk(s, r) && s.gate.objects[r].reprompts <= 2
    ensures r in Next(s, a).gate.objects
    ensures Next(s, a).gate.objects[r].reprompts == AtMostTwo(s.gate.objects[r].reprompts + if Reaches(s, a, r) then 1 else 0)
  {
  }

  lemma RepromptInv(s: State, a: Action, r: nat)
    requires Inv(s) && Enabled(s, a) && r in s.gate.objects
    ensures r in Next(s, a).gate.objects
    ensures Next(s, a).gate.objects[r].reprompts == AtMostTwo(s.gate.objects[r].reprompts + if Reaches(s, a, r) then 1 else 0)
  {
    assert RequestOk(s, r);
    RepromptStep(s, a, r);
  }

  // From one state to another r was asked for again for n replies that reached it.
  predicate Counted(s: State, t: State, r: nat, n: nat) {
    && r in s.gate.objects && r in t.gate.objects
    && t.gate.objects[r].reprompts == AtMostTwo(s.gate.objects[r].reprompts + n)
  }

  lemma CountedStep(s: State, a: Action, r: nat)
    requires Inv(s) && Enabled(s, a) && r in s.gate.objects
    ensures Inv(Next(s, a)) && r in Next(s, a).gate.objects
    ensures Counted(s, Next(s, a), r, if Reaches(s, a, r) then 1 else 0)
  {
    RepromptInv(s, a, r);
    StepKeeps(s, a);
  }

  lemma CountedChain(s: State, t: State, u: State, r: nat, m: nat, n: nat)
    requires Counted(s, t, r, m) && Counted(t, u, r, n)
    ensures Counted(s, u, r, m + n)
  {
  }

  lemma AtMostTwoOnce(s: State, r: nat)
    requires Inv(s) && r in s.gate.objects
    ensures Counted(s, s, r, 0)
  {
    assert ObjectOk(s, r) by {
      assert r in s.phase && RequestOk(s, r);
    }
  }

  lemma {:induction false} RepromptRun(s: State, run: seq<Action>, r: nat)
    requires Inv(s) && Legal(s, run) && r in s.gate.objects
    ensures Counted(s, Exec(s, run), r, AmbiguousTo(s, run, r))
    decreases |run|
  {
    if run == [] {
      AtMostTwoOnce(s, r);
    } else {
      var s' := Next(s, run[0]);
      CountedStep(s, run[0], r);
      RepromptRun(s', run[1..], r);
      CountedChain(s, s', Exec(s', run[1..]), r, if Reaches(s, run[0], r) then 1 else 0, AmbiguousTo(s', run[1..], r));
    }
  }

  lemma NewlyAsked(s: State, r: nat, prompt: string)
    requires Inv(s) && Enabled(s, Register(r, prompt))
    ensures Inv(Next(s, Register(r, prompt))) && r in Next(s, Register(r, prompt)).gate.objects
    ensures Next(s, Register(r, prompt)).gate.objects[r].reprompts == 0
  {
    StepKeeps(s, Register(r, prompt));
  }

  ghost predicate AskedAgain(t: State, r: nat, ambiguous: nat) {
    && r in t.gate.objects && t.gate.objects[r].reprompts == AtMostTwo(ambiguous)
    && forall user :: Enabled(t, Ambiguous(user))
  }

  lemma RepromptsFrom(s: State, run: seq<Action>, r: nat)
    requires Inv(s) && Legal(s, run) && r in s.gate.objects && s.gate.objects[r].reprompts == 0
    ensures AskedAgain(Exec(s, run), r, AmbiguousTo(s, run, r))
  {
    RepromptRun(s, run, r);
    FromNone(s, Exec(s, run), r, AmbiguousTo(s, run, r));
  }

  lemma FromNone(s: State, t: State, r: nat, n: nat)
    requires Counted(s, t, r, n) && s.gate.objects[r].reprompts == 0
    ensures AskedAgain(t, r, n)
  {
  }

  // From its registration on a request has been asked for again once for each of the
  // first two ambiguous replies that reached it, and for no other.  One may always come.
  lemma RepromptsExact(before: seq<Action>, r: nat, prompt: string, s: State, after: seq<Action>)
    requires Legal(Init, before) && Enabled(Exec(Init, before), Register(r, prompt))
    requires s == Next(Exec(Init, before), Register(r, prompt)) && Legal(s, after)
    ensures AskedAgain(Exec(s, after), r, AmbiguousTo(s, after, r))
  {
    RunKeeps(Init, before);
    NewlyAsked(Exec(Init, before), r, prompt);
    RepromptsFrom(s, after, r);
  }

  // ---- How far a reply has come ------------------------------------------------------------

  function Advances(run: seq<Action>, c: nat): nat {
    if run == [] then 0 else (if run[0] == Advance(c) then 1 else 0) + Advances(run[1..], c)
  }

  // How often a reply has run on.
  function Ordinal(stage: Stage): nat {
    match stage
    case Deleting => 0
    case Recording => 1
    case Waking => 2
    case Done => 3
  }

  predicate SameReply(s: State, t: State, c: nat, more: nat, lost: bool)
    requires c in s.calls
  {
    && c in t.calls && t.calls[c].target == s.calls[c].target && t.calls[c].decision == s.calls[c].decision
    && Ordinal(t.calls[c].stage) == Ordinal(s.calls[c].stage) + more && t.calls[c].lost == (s.calls[c].lost || lost)
  }

  lemma CallStep(s: State, a: Action, c: nat)
    requires Enabled(s, a) && c in s.calls
    ensures SameReply(s, Next(s, a), c, if a == Advance(c) then 1 else 0, a == Lose(c))
  {
  }

  lemma {:induction false} CallRun(s: State, run: seq<Action>, c: nat)
    requires Legal(s, run) && c in s.calls
    ensures SameReply(s, Exec(s, run), c, Advances(run, c), Lose(c) in run)
    decreases |run|
  {
    if run != [] {
      CallStep(s, run[0], c);
      CallRun(Next(s, run[0]), run[1..], c);
      assert Lose(c) in run <==> run[0] == Lose(c) || Lose(c) in run[1..];
    }
  }

  // What a reply that has just come has done after a run.
  predicate RanOn(t: State, c: nat, target: nat, d: Decision, steps: nat, lost: bool) {
    && c in t.calls && t.calls[c].target == target && t.calls[c].decision == d
    && Ordinal(t.calls[c].stage) == steps <= 3 && t.calls[c].lost == lost
    && (Enabled(t, Advance(c)) <==> steps < 3 && !lost)
    && (Enabled(t, Lose(c)) <==> steps < 3 && !lost)
  }

  lemma MayAdvance(t: State, c: nat)
    requires Inv(t) && c in t.calls
    ensures t.calls[c].target in t.gate.objects && t.calls[c].target in t.owner
  {
    assert CallOk(t, c);
  }

  lemma RanOnIs(t: State, c: nat, steps: nat)
    requires c in t.calls && t.calls[c].target in t.gate.objects && t.calls[c].target in t.owner
    requires Ordinal(t.calls[c].stage) == steps
    ensures RanOn(t, c, t.calls[c].target, t.calls[c].decision, steps, t.calls[c].lost)
  {
  }

  lemma ReplyRun(s: State, run: seq<Action>, c: nat)
    requires Inv(s) && Legal(s, run) && c in s.calls && s.calls[c].stage == Deleting && !s.calls[c].lost
    ensures RanOn(Exec(s, run), c, s.calls[c].target, s.calls[c].decision, Advances(run, c), Lose(c) in run)
  {
    var t := Exec(s, run);
    CallRun(s, run, c);
    RunKeeps(s, run);
    MayAdvance(t, c);
    RanOnIs(t, c, Advances(run, c));
  }

  lemma Replying(s: State, c: nat, user: string, d: Decision)
    requires Inv(s) && Enabled(s, Resolve(c, user, d))
    ensures Inv(Next(s, Resolve(c, user, d)))
    ensures Next(s, Resolve(c, user, d)).calls == s.calls[c := Call(s.gate.pending[user], d, Deleting, false)]
  {
    StepKeeps(s, Resolve(c, user, d));
  }

  // A reply is to the request the gate holds when it comes, keeps its decision, and
  // has run on as often as it was let; until it has run on three times, to delete the
  // row, write its record and wake the request, it can go on or lose its task, unless it
  // lost its task before.
  lemma ReplyAfter(before: seq<Action>, c: nat, user: string, d: Decision, after: seq<Action>)
    returns (s: State, t: State)
    requires Legal(Init, before) && Enabled(Exec(Init, before), Resolve(c, user, d))
    requires Legal(Next(Exec(Init, before), Resolve(c, user, d)), after)
    ensures s == Exec(Init, before) && Enabled(s, Resolve(c, user, d))
    ensures t == Exec(Next(s, Resolve(c, user, d)), after)
    ensures RanOn(t, c, s.gate.pending[user], d, Advances(after, c), Lose(c) in after)
  {
    s := Exec(Init, before);
    RunKeeps(Init, before);
    Replying(s, c, user, d);
    ReplyRun(Next(s, Resolve(c, user, d)), after, c);
    t := Exec(Next(s, Resolve(c, user, d)), after);
  }

  // ---- Requests that timed out ----------------------------------------------------------

  // timedOut: whether r timed out so far.
  predicate TimeOutOk(s: State, r: nat, timedOut: bool) {
    if r !in s.phase then TimedOut(r) !in s.audit && !timedOut
    else match s.phase[r]
    case Cleaning(_, t) => t == timedOut && TimedOut(r) !in s.audit
    case Reporting(_) => timedOut && TimedOut(r) !in s.audit
    case Returned(_) => TimedOut(r) in s.audit <==> timedOut
    case Aborted => true
    case _ => !timedOut && TimedOut(r) !in s.audit
  }

  lemma TimeOutStep(s: State, a: Action, r: nat, timedOut: bool)
    requires Enabled(s, a) && TimeOutOk(s, r, timedOut) && s.phase.Keys == s.owner.Keys
    ensures TimeOutOk(Next(s, a), r, timedOut || a == TimeOut(r))
  {
    if r !in s.phase || a.Resolve? || a.Advance? || a.Lose? || a.Ambiguous? || a.r != r {
      SamePhase(s, a, r);
    }
  }

  lemma SamePhase(s: State, a: Action, r: nat)
    requires Enabled(s, a) && s.phase.Keys == s.owner.Keys
    requires r !in s.phase || a.Resolve? || a.Advance? || a.Lose? || a.Ambiguous? || a.r != r
    ensures TimedOut(r) in Next(s, a).audit <==> TimedOut(r) in s.audit
    ensures if r in s.phase then r in Next(s, a).phase && Next(s, a).phase[r] == s.phase[r]
            else r in Next(s, a).phase ==> Next(s, a).phase[r] == Starting
  {
  }

  lemma {:induction false} TimeOutRun(s: State, run: seq<Action>, r: nat, timedOut: bool)
    requires Inv(s) && Legal(s, run) && TimeOutOk(s, r, timedOut)
    ensures TimeOutOk(Exec(s, run), r, timedOut || TimeOut(r) in run)
    decreases |run|
  {
    if run != [] {
      TimeOutStep(s, run[0], r, timedOut);
      StepKeeps(s, run[0]);
      TimeOutRun(Next(s, run[0]), run[1..], r, timedOut || run[0] == TimeOut(r));
      assert TimeOut(r) in run <==> run[0] == TimeOut(r) || TimeOut(r) in run[1..];
    }
  }

  // A request that returned has a "timed out" record if and only if it timed out; a
  // failure to publish its prompt leaves none.
  lemma TimedOutIff(run: seq<Action>, r: nat, result: Decision)
    requires Legal(Init, run) && At(Exec(Init, run), r, Returned(result))
    ensures TimedOut(r) in Exec(Init, run).audit <==> TimeOut(r) in run
  {
    TimeOutRun(Init, run, r, false);
  }

  // What a request returned is final: it is not cancelled, asked or recorded again.
  lemma {:induction false} ReturnedStays(s: State, run: seq<Action>, r: nat, result: Decision)
    requires Legal(s, run) && At(s, r, Returned(result))
    ensures At(Exec(s, run), r, Returned(result)) && Abort(r) !in run
    decreases |run|
  {
    if run != [] {
      ReturnedStays(Next(s, run[0]), run[1..], r, result);
      assert Abort(r) in run <==> run[0] == Abort(r) || Abort(r) in run[1..];
    }
  }
}
