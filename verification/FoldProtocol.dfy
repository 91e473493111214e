/**
 Dispatches of inbound messages, the per-user lock they queue on, and the inbox
 through which the turn holding the lock may claim a waiting dispatch.

 One action is the code between two suspension points.  The state carries a log
 of what happened, and the theorems about outcomes are statements about the log
 of an arbitrary run.
 */
module FoldProtocol {
  import opened MidTurn

  datatype Dispatch = Dispatch(user: string, session: string, channel: string, request: string)

  // Webchat requests own a response that expects its own reply; only
  // messaging-channel dispatches fold, and only their turns drain the inbox.
  predicate Foldable(d: Dispatch) {
    d.channel != "" && d.request == ""
  }

  datatype Phase =
    | Waiting    // queued on the lock
    | Running    // holds the lock, the turn is under way
    | Ended      // its turn finished, failed, timed out or was cut
    | Folded     // returned without a turn because it was claimed
    | Dropped    // its task was cancelled from outside while it waited

  // consumed: a running turn claimed it.  polling: its stale-approval poll is alive.
  datatype Task = Task(phase: Phase, consumed: bool, polling: bool)

  datatype Event =
    | Turn(d: nat)
    | End(d: nat)
    | Fold(d: nat, into: nat)
    | Interrupt(d: nat)

  // info never changes once a dispatch arrived; asking holds the users with a
  // pending approval.
  datatype State = State(
    info: map<nat, Dispatch>,
    tasks: map<nat, Task>,
    holder: map<string, nat>,
    inbox: Inbox<nat>,
    asking: set<string>,
    log: seq<Event>)

  const Init := State(map[], map[], map[], map[], {}, [])

  datatype Action =
    | Arrive(d: nat, what: Dispatch)
    | Acquire(d: nat)
    | Drain(d: nat)
    | Deliver(d: nat)    // the cancellation that follows a claim reaches the waiting task
    | Finish(d: nat)
    | Poll(d: nat)
    | Cancel(d: nat)
    | Ask(user: string)
    | Answer(user: string)

  predicate Has(s: State, d: nat) {
    d in s.tasks && d in s.info
  }

  predicate Enabled(s: State, a: Action) {
    match a
    case Arrive(d, _) => d !in s.tasks && d !in s.info
    case Acquire(d) => Has(s, d) && s.tasks[d].phase == Waiting && s.info[d].user !in s.holder
    case Drain(d) => Has(s, d) && s.tasks[d].phase == Running && Foldable(s.info[d])
    case Deliver(d) => Has(s, d) && s.tasks[d].phase == Waiting && s.tasks[d].consumed
    case Finish(d) => Has(s, d) && s.tasks[d].phase == Running
    case Poll(d) => Has(s, d) && s.tasks[d].polling
    case Cancel(d) => Has(s, d) && (s.tasks[d].phase == Waiting || s.tasks[d].phase == Running)
    case _ => true
  }

  function Arrived(s: State, d: nat, what: Dispatch): State {
    s.(info := s.info[d := what], tasks := s.tasks[d := Task(Waiting, false, true)],
       inbox := if Foldable(what) then Registered(s.inbox, what.user, d) else s.inbox)
  }

  // Out of the queue: the poll stops and the inbox entry, if any, is removed.
  function Departed(s: State, d: nat, phase: Phase): State
    requires Has(s, d)
  {
    s.(tasks := s.tasks[d := s.tasks[d].(phase := phase, polling := false)],
       inbox := if Foldable(s.info[d]) then Unregistered(s.inbox, s.info[d].user, d) else s.inbox)
  }

  function Acquired(s: State, d: nat): State
    requires Has(s, d)
  {
    Departed(s, d, Running).(holder := s.holder[s.info[d].user := d], log := s.log + [Turn(d)])
  }

  function Matching(s: State, h: nat): nat -> bool
    requires h in s.info
  {
    e => e in s.info && s.info[e].session == s.info[h].session && s.info[e].channel == s.info[h].channel
  }

  function Queue(s: State, h: nat): seq<nat>
    requires h in s.info
  {
    Entries(s.inbox, s.info[h].user)
  }

  function Claimable(s: State, h: nat): seq<nat>
    requires h in s.info
  {
    Keep(Queue(s, h), Matching(s, h))
  }

  function Folds(claimed: seq<nat>, h: nat): seq<Event> {
    if claimed == [] then [] else Folds(claimed[..|claimed| - 1], h) + [Fold(claimed[|claimed| - 1], h)]
  }

  function Drained(s: State, h: nat): State
    requires h in s.info
  {
    var claimed := Claimable(s, h);
    s.(tasks := map d | d in s.tasks :: s.tasks[d].(consumed := s.tasks[d].consumed || d in claimed),
       inbox := Left(s.inbox, s.info[h].user, Matching(s, h)),
       log := s.log + Folds(claimed, h))
  }

  function Released(s: State, h: nat): State
    requires Has(s, h)
  {
    s.(tasks := s.tasks[h := s.tasks[h].(phase := Ended)],
       holder := s.holder - {s.info[h].user}, log := s.log + [End(h)])
  }

  function Polled(s: State, d: nat): State
    requires Has(s, d)
  {
    var still := s.(tasks := s.tasks[d := s.tasks[d].(polling := false)]);
    if s.tasks[d].consumed then still
    else if s.info[d].user in s.asking then still.(asking := s.asking - {s.info[d].user}, log := s.log + [Interrupt(d)])
    else s
  }

  function Next(s: State, a: Action): State
    requires Enabled(s, a)
  {
    match a
    case Arrive(d, what) => Arrived(s, d, what)
    case Acquire(d) => Acquired(s, d)
    case Drain(d) => Drained(s, d)
    case Deliver(d) => Departed(s, d, Folded)
    case Finish(d) => Released(s, d)
    case Poll(d) => Polled(s, d)
    case Cancel(d) => if s.tasks[d].phase == Waiting then Departed(s, d, Dropped) else Released(s, d)
    case Ask(user) => s.(asking := s.asking + {user})
    case Answer(user) => s.(asking := s.asking - {user})
  }

  predicate Legal(s: State, run: seq<Action>)
    decreases |run|
  {
    run == [] || (Enabled(s, run[0]) && Legal(Next(s, run[0]), run[1..]))
  }

  function Exec(s: State, run: seq<Action>): State
    requires Legal(s, run)
    decreases |run|
  {
    if run == [] then s else Exec(Next(s, run[0]), run[1..])
  }

  // ---- What the log says -------------------------------------------------

  function Turns(log: seq<Event>, d: nat): nat { multiset(log)[Turn(d)] }

  function Ends(log: seq<Event>, d: nat): nat { multiset(log)[End(d)] }

  // How often d was claimed, by any turn.
  function Claims(log: seq<Event>, d: nat): nat {
    if log == [] then 0
    else Claims(log[..|log| - 1], d) + (if log[|log| - 1].Fold? && log[|log| - 1].d == d then 1 else 0)
  }

  // The turn of d is under way after these events.
  predicate Open(log: seq<Event>, d: nat) {
    Turn(d) in log && End(d) !in log
  }

  // What must have happened before an event:
  //  - a turn starts only when no turn of its user is under way;
  //  - a claim is made by a turn under way, for a dispatch of the same user,
  //    session and channel, neither of them a webchat request;
  //  - a poll interrupts only while its message is unclaimed.
  ghost predicate EventOk(info: map<nat, Dispatch>, before: seq<Event>, e: Event) {
    e.d in info &&
    match e
    case Turn(d) => forall x :: x in info && info[x].user == info[d].user ==> !Open(before, x)
    case End(d) => Open(before, d)
    case Fold(d, h) =>
      && h in info && d != h && info[d].user == info[h].user && info[d].session == info[h].session
      && info[d].channel == info[h].channel && Foldable(info[d]) && Foldable(info[h]) && Open(before, h)
    case Interrupt(d) => Claims(before, d) == 0
  }

  ghost predicate Ordered(info: map<nat, Dispatch>, log: seq<Event>) {
    forall i :: 0 <= i < |log| ==> EventOk(info, log[..i], log[i])
  }

  // ---- The invariant of every run ----------------------------------------

  // In the inbox: waiting, allowed to fold, and not yet claimed.
  predicate Queued(s: State, d: nat)
    requires Has(s, d)
  {
    s.tasks[d].phase == Waiting && Foldable(s.info[d]) && !s.tasks[d].consumed
  }

  ghost predicate TaskOk(s: State, d: nat)
    requires Has(s, d)
  {
    var t, user := s.tasks[d], s.info[d].user;
    && (t.phase == Running ==> user in s.holder && s.holder[user] == d)
    && (t.consumed ==> Foldable(s.info[d])) && (t.polling ==> t.phase == Waiting)
    && (t.phase == Folded ==> t.consumed)
    && (t.phase == Waiting && !t.polling ==> t.consumed || Interrupt(d) in s.log)
    && (d in Entries(s.inbox, user) <==> Queued(s, d))
  }

  ghost predicate HolderOk(s: State) {
    forall u :: u in s.holder ==>
      Has(s, s.holder[u]) && s.tasks[s.holder[u]].phase == Running && s.info[s.holder[u]].user == u
  }

  ghost predicate InboxOk(s: State) {
    forall u :: Distinct(Entries(s.inbox, u)) &&
      forall d :: d in Entries(s.inbox, u) ==> d in s.tasks && d in s.info && s.info[d].user == u
  }

  ghost predicate Tables(s: State) {
    s.tasks.Keys == s.info.Keys && (forall d :: d in s.tasks ==> TaskOk(s, d)) && HolderOk(s) && InboxOk(s)
  }

  ghost predicate Counted(log: seq<Event>, d: nat, t: Task) {
    && Turns(log, d) == (if t.phase == Running || t.phase == Ended then 1 else 0)
    && Ends(log, d) == (if t.phase == Ended then 1 else 0)
    && Claims(log, d) == (if t.consumed then 1 else 0)
  }

  ghost predicate Counts(tasks: map<nat, Task>, log: seq<Event>) {
    && (forall i :: 0 <= i < |log| ==> log[i].d in tasks)
    && (forall d :: d in tasks ==> Counted(log, d, tasks[d]))
  }

  ghost predicate Inv(s: State) {
    Tables(s) && Counts(s.tasks, s.log) && Ordered(s.info, s.log)
  }

  // ---- The log grows -------------------------------------------------------

  lemma AppendOne(log: seq<Event>, e: Event, d: nat)
    ensures Turns(log + [e], d) == Turns(log, d) + (if e == Turn(d) then 1 else 0)
    ensures Ends(log + [e], d) == Ends(log, d) + (if e == End(d) then 1 else 0)
    ensures Claims(log + [e], d) == Claims(log, d) + (if e.Fold? && e.d == d then 1 else 0)
  {
    assert (log + [e])[..|log|] == log;
  }

  lemma {:induction false} NoClaims(log: seq<Event>, d: nat)
    requires forall i :: 0 <= i < |log| ==> log[i].d != d
    ensures Claims(log, d) == 0
  {
    if log != [] {
      NoClaims(log[..|log| - 1], d);
    }
  }

  lemma OrderedAppend(info: map<nat, Dispatch>, log: seq<Event>, e: Event)
    requires Ordered(info, log) && EventOk(info, log, e)
    ensures Ordered(info, log + [e])
  {
    var longer := log + [e];
    forall i | 0 <= i < |longer|
      ensures EventOk(info, longer[..i], longer[i])
    {
      assert longer[..i] == if i < |log| then log[..i] else log;
    }
  }

  lemma OrderedGrows(info: map<nat, Dispatch>, log: seq<Event>, d: nat, what: Dispatch)
    requires Ordered(info, log) && d !in info
    ensures Ordered(info[d := what], log)
  {
    forall i | 0 <= i < |log|
      ensures EventOk(info[d := what], log[..i], log[i])
    {
      assert EventOk(info, log[..i], log[i]);
      forall k | 0 <= k < i
        ensures log[k].d != d
      {
        assert EventOk(info, log[..k], log[k]);
      }
      assert !Open(log[..i], d);
    }
  }

  lemma CountsAppend(tasks: map<nat, Task>, tasks': map<nat, Task>, log: seq<Event>, e: Event)
    requires Counts(tasks, log) && tasks'.Keys == tasks.Keys && e.d in tasks && !e.Fold?
    requires forall d :: d in tasks && d != e.d ==> tasks'[d] == tasks[d]
    requires tasks'[e.d].consumed == tasks[e.d].consumed
    requires e.Turn? ==> tasks[e.d].phase == Waiting && tasks'[e.d].phase == Running
    requires e.End? ==> tasks[e.d].phase == Running && tasks'[e.d].phase == Ended
    requires e.Interrupt? ==> tasks[e.d].phase == tasks'[e.d].phase
    ensures Counts(tasks', log + [e])
  {
    forall d | d in tasks'
      ensures Counted(log + [e], d, tasks'[d])
    {
      assert Counted(log, d, tasks[d]);
      AppendOne(log, e, d);
    }
  }

  lemma CountsFramed(tasks: map<nat, Task>, d: nat, t: Task, log: seq<Event>)
    requires Counts(tasks, log) && d in tasks && t.consumed == tasks[d].consumed
    requires t.phase == tasks[d].phase || (tasks[d].phase == Waiting && (t.phase == Dropped || t.phase == Folded))
    ensures Counts(tasks[d := t], log)
  {
    assert Counted(log, d, tasks[d]);
  }

  // Which turns are under way, from the counts.
  lemma OpenIsRunning(tasks: map<nat, Task>, log: seq<Event>, d: nat)
    requires Counts(tasks, log)
    ensures Open(log, d) <==> d in tasks && tasks[d].phase == Running
  {
    if d in tasks {
      assert Counted(log, d, tasks[d]);
      assert Turn(d) in log <==> Turn(d) in multiset(log);
      assert End(d) in log <==> End(d) in multiset(log);
    }
  }

  // ---- Each action, on the tables -------------------------------------------

  // Leaving the queue takes d, and only d, out of the inbox.
  lemma DepartedInbox(s: State, d: nat, phase: Phase)
    requires Tables(s) && Has(s, d)
    ensures var box := Departed(s, d, phase).inbox;
            && (forall u, e :: e in Entries(box, u) <==> e in Entries(s.inbox, u) && e != d)
            && (forall u :: Distinct(Entries(box, u)))
  {
    var s', user := Departed(s, d, phase), s.info[d].user;
    assert TaskOk(s, d);
    WithoutMembers(Entries(s.inbox, user), d);
    assert forall u :: u != user ==> Entries(s'.inbox, u) == Entries(s.inbox, u);
    if Foldable(s.info[d]) {
      assert Entries(s'.inbox, user) == Without(Entries(s.inbox, user), d);
    }
  }

  lemma ArrivedInbox(s: State, d: nat, what: Dispatch)
    requires InboxOk(s) && d !in s.tasks
    ensures var box := Arrived(s, d, what).inbox;
            && (forall u, e :: e in Entries(box, u) <==> e in Entries(s.inbox, u) || (Foldable(what) && u == what.user && e == d))
            && (forall u :: Distinct(Entries(box, u)))
  {
    var box := Arrived(s, d, what).inbox;
    assert d !in Entries(s.inbox, what.user);
    assert forall u :: u != what.user ==> Entries(box, u) == Entries(s.inbox, u);
  }

  lemma ArriveTables(s: State, d: nat, what: Dispatch)
    requires Tables(s) && d !in s.tasks
    ensures Tables(Arrived(s, d, what))
  {
    var s' := Arrived(s, d, what);
    forall e | e in s'.tasks
      ensures TaskOk(s', e)
    {
      ArriveTask(s, d, what, e);
    }
    ArriveOthers(s, d, what);
  }

  lemma ArriveOthers(s: State, d: nat, what: Dispatch)
    requires Tables(s) && d !in s.tasks
    ensures HolderOk(Arrived(s, d, what)) && InboxOk(Arrived(s, d, what))
  {
    ArrivedInbox(s, d, what);
  }

  lemma ArriveTask(s: State, d: nat, what: Dispatch, e: nat)
    requires Tables(s) && d !in s.tasks && e in Arrived(s, d, what).tasks
    ensures TaskOk(Arrived(s, d, what), e)
  {
    ArrivedInbox(s, d, what);
    if e == d {
      assert d !in Entries(s.inbox, what.user);
    } else {
      assert TaskOk(s, e);
    }
  }

  lemma DepartTask(s: State, d: nat, phase: Phase, e: nat)
    requires Tables(s) && Has(s, d) && s.tasks[d].phase == Waiting && e in s.tasks
    requires phase == Dropped || (phase == Folded && s.tasks[d].consumed)
    ensures TaskOk(Departed(s, d, phase), e)
  {
    DepartedInbox(s, d, phase);
    assert TaskOk(s, e);
  }

  lemma DepartOthers(s: State, d: nat, phase: Phase)
    requires Tables(s) && Has(s, d) && s.tasks[d].phase == Waiting
    ensures HolderOk(Departed(s, d, phase)) && InboxOk(Departed(s, d, phase))
  {
    DepartedInbox(s, d, phase);
  }

  lemma DepartTables(s: State, d: nat, phase: Phase)
    requires Tables(s) && Has(s, d) && s.tasks[d].phase == Waiting
    requires phase == Dropped || (phase == Folded && s.tasks[d].consumed)
    ensures Tables(Departed(s, d, phase))
  {
    DepartOthers(s, d, phase);
    forall e | e in s.tasks
      ensures TaskOk(Departed(s, d, phase), e)
    {
      DepartTask(s, d, phase, e);
    }
  }

  lemma AcquireTask(s: State, d: nat, e: nat)
    requires Tables(s) && Enabled(s, Acquire(d)) && e in s.tasks
    ensures TaskOk(Acquired(s, d), e)
  {
    DepartedInbox(s, d, Running);
    assert TaskOk(s, e);
  }

  lemma AcquireTables(s: State, d: nat)
    requires Tables(s) && Enabled(s, Acquire(d))
    ensures Tables(Acquired(s, d))
  {
    DepartOthers(s, d, Running);
    forall e | e in s.tasks
      ensures TaskOk(Acquired(s, d), e)
    {
      AcquireTask(s, d, e);
    }
  }

  lemma ReleaseTask(s: State, h: nat, e: nat)
    requires Tables(s) && Has(s, h) && s.tasks[h].phase == Running && e in s.tasks
    ensures TaskOk(Released(s, h), e)
  {
    assert TaskOk(s, h) && TaskOk(s, e);
  }

  lemma ReleaseTables(s: State, h: nat)
    requires Tables(s) && Has(s, h) && s.tasks[h].phase == Running
    ensures Tables(Released(s, h))
  {
    assert TaskOk(s, h);
    forall e | e in s.tasks
      ensures TaskOk(Released(s, h), e)
    {
      ReleaseTask(s, h, e);
    }
  }

  lemma PollTask(s: State, d: nat, e: nat)
    requires Tables(s) && Enabled(s, Poll(d)) && e in s.tasks
    ensures TaskOk(Polled(s, d), e)
  {
    assert TaskOk(s, e);
    var s' := Polled(s, d);
    assert s'.log != s.log ==> s'.log[|s.log|] == Interrupt(d);
  }

  lemma PollTables(s: State, d: nat)
    requires Tables(s) && Enabled(s, Poll(d))
    ensures Tables(Polled(s, d))
  {
    forall e | e in s.tasks
      ensures TaskOk(Polled(s, d), e)
    {
      PollTask(s, d, e);
    }
  }

  ghost predicate MayClaim(s: State, d: nat, h: nat)
    requires h in s.info
  {
    Has(s, d) && Queued(s, d) && s.info[d].user == s.info[h].user
    && s.info[d].session == s.info[h].session && s.info[d].channel == s.info[h].channel
  }

  // What a drain does, told by its effect: claimed are the matching entries of
  // the queue, they leave the inbox, become consumed, and are logged.
  ghost predicate DrainEffect(s: State, s': State, h: nat, claimed: seq<nat>)
    requires h in s.info
  {
    && s'.info == s.info && s'.holder == s.holder && s'.tasks.Keys == s.tasks.Keys && Distinct(claimed)
    && (forall d :: d in s.tasks ==> s'.tasks[d] == s.tasks[d].(consumed := s.tasks[d].consumed || d in claimed))
    && (forall d :: d in claimed ==> MayClaim(s, d, h))
    && s'.log == s.log + Folds(claimed, h)
    && (forall u :: Distinct(Entries(s'.inbox, u)) &&
          forall e :: e in Entries(s'.inbox, u) <==> e in Entries(s.inbox, u) && e !in claimed)
  }

  lemma DrainedInbox(s: State, h: nat)
    requires InboxOk(s) && h in s.info
    ensures Distinct(Claimable(s, h))
    ensures forall u :: Distinct(Entries(Drained(s, h).inbox, u)) &&
              forall e :: e in Entries(Drained(s, h).inbox, u) <==> e in Entries(s.inbox, u) && e !in Claimable(s, h)
  {
    var user, box := s.info[h].user, Drained(s, h).inbox;
    KeepMembers(Queue(s, h), Matching(s, h));
    KeepDistinct(Queue(s, h), Matching(s, h));
    assert Entries(box, user) == Drop(Queue(s, h), Matching(s, h));
    assert forall u :: u != user ==> Entries(box, u) == Entries(s.inbox, u);
  }

  lemma ClaimableTasks(s: State, h: nat)
    requires Tables(s) && h in s.info
    ensures forall d :: d in Claimable(s, h) ==> MayClaim(s, d, h)
  {
    KeepMembers(Queue(s, h), Matching(s, h));
    forall e | e in Claimable(s, h)
      ensures MayClaim(s, e, h)
    {
      assert e in Queue(s, h);
      assert TaskOk(s, e);
    }
  }

  lemma DrainHas(s: State, h: nat)
    requires Tables(s) && Enabled(s, Drain(h))
    ensures DrainEffect(s, Drained(s, h), h, Claimable(s, h))
  {
    DrainedInbox(s, h);
    ClaimableTasks(s, h);
  }

  lemma DrainTask(s: State, s': State, h: nat, claimed: seq<nat>, e: nat)
    requires s.tasks.Keys == s.info.Keys && h in s.info && DrainEffect(s, s', h, claimed) && Has(s, e) && TaskOk(s, e)
    ensures TaskOk(s', e)
  {
    if Interrupt(e) in s.log {
      var i :| 0 <= i < |s.log| && s.log[i] == Interrupt(e);
      assert s'.log[i] == Interrupt(e);
    }
    assert e in claimed ==> MayClaim(s, e, h);
  }

  lemma DrainTables(s: State, s': State, h: nat, claimed: seq<nat>)
    requires Tables(s) && h in s.info && DrainEffect(s, s', h, claimed)
    ensures Tables(s')
  {
    forall e | e in s'.tasks
      ensures TaskOk(s', e)
    {
      DrainTask(s, s', h, claimed, e);
    }
    forall u, d | d in Entries(s'.inbox, u)
      ensures d in s.tasks && d in s.info && s.info[d].user == u
    {
      assert d in Entries(s.inbox, u);
    }
  }

  lemma {:induction false} AppendFolds(log: seq<Event>, claimed: seq<nat>, h: nat, d: nat)
    requires Distinct(claimed)
    ensures Turns(log + Folds(claimed, h), d) == Turns(log, d)
    ensures Ends(log + Folds(claimed, h), d) == Ends(log, d)
    ensures Claims(log + Folds(claimed, h), d) == Claims(log, d) + (if d in claimed then 1 else 0)
  {
    if claimed == [] {
      assert log + Folds(claimed, h) == log;
    } else {
      var init, last := claimed[..|claimed| - 1], claimed[|claimed| - 1];
      assert claimed == init + [last];
      AppendFolds(log, init, h, d);
      AppendOne(log + Folds(init, h), Fold(last, h), d);
      assert log + Folds(claimed, h) == (log + Folds(init, h)) + [Fold(last, h)];
    }
  }

  lemma {:induction false} FoldsOrdered(s: State, h: nat, claimed: seq<nat>)
    requires Ordered(s.info, s.log) && h in s.info && Foldable(s.info[h]) && Open(s.log, h)
    requires forall d :: d in claimed ==> MayClaim(s, d, h) && d != h
    ensures Ordered(s.info, s.log + Folds(claimed, h)) && Open(s.log + Folds(claimed, h), h)
    decreases |claimed|
  {
    if claimed == [] {
      assert s.log + Folds(claimed, h) == s.log;
    } else {
      var init, last := claimed[..|claimed| - 1], claimed[|claimed| - 1];
      var log := s.log + Folds(init, h);
      assert forall d :: d in init ==> d in claimed;
      FoldsOrdered(s, h, init);
      assert s.log + Folds(claimed, h) == log + [Fold(last, h)];
      assert last in claimed;
      OrderedAppend(s.info, log, Fold(last, h));
    }
  }

  lemma DrainCounts(s: State, s': State, h: nat, claimed: seq<nat>)
    requires Counts(s.tasks, s.log) && Ordered(s'.info, s'.log) && s.tasks.Keys == s.info.Keys
    requires h in s.info && DrainEffect(s, s', h, claimed)
    ensures Counts(s'.tasks, s'.log)
  {
    forall d | d in s'.tasks
      ensures Counted(s'.log, d, s'.tasks[d])
    {
      assert Counted(s.log, d, s.tasks[d]);
      assert d in claimed ==> MayClaim(s, d, h);
      AppendFolds(s.log, claimed, h, d);
    }
    forall i | 0 <= i < |s'.log|
      ensures s'.log[i].d in s'.tasks
    {
      assert EventOk(s'.info, s'.log[..i], s'.log[i]);
    }
  }

  // ---- Every run -----------------------------------------------------------

  lemma ArriveStep(s: State, d: nat, what: Dispatch)
    requires Inv(s) && Enabled(s, Arrive(d, what))
    ensures Inv(Arrived(s, d, what))
  {
    ArriveTables(s, d, what);
    OrderedGrows(s.info, s.log, d, what);
    NoClaims(s.log, d);
    assert Counted(s.log, d, Task(Waiting, false, true)) by {
      assert Turn(d) !in multiset(s.log) && End(d) !in multiset(s.log);
    }
  }

  lemma AcquireStep(s: State, d: nat)
    requires Inv(s) && Enabled(s, Acquire(d))
    ensures Inv(Acquired(s, d))
  {
    AcquireTables(s, d);
    CountsAppend(s.tasks, Acquired(s, d).tasks, s.log, Turn(d));
    forall x | x in s.info && s.info[x].user == s.info[d].user
      ensures !Open(s.log, x)
    {
      OpenIsRunning(s.tasks, s.log, x);
      assert TaskOk(s, x);
    }
    OrderedAppend(s.info, s.log, Turn(d));
  }

  lemma DepartStep(s: State, d: nat, phase: Phase)
    requires Inv(s) && Has(s, d) && s.tasks[d].phase == Waiting
    requires phase == Dropped || (phase == Folded && s.tasks[d].consumed)
    ensures Inv(Departed(s, d, phase))
  {
    DepartTables(s, d, phase);
    CountsFramed(s.tasks, d, s.tasks[d].(phase := phase, polling := false), s.log);
  }

  lemma ReleaseStep(s: State, h: nat)
    requires Inv(s) && Has(s, h) && s.tasks[h].phase == Running
    ensures Inv(Released(s, h))
  {
    ReleaseTables(s, h);
    CountsAppend(s.tasks, Released(s, h).tasks, s.log, End(h));
    OpenIsRunning(s.tasks, s.log, h);
    OrderedAppend(s.info, s.log, End(h));
  }

  lemma PollStep(s: State, d: nat)
    requires Inv(s) && Enabled(s, Poll(d))
    ensures Inv(Polled(s, d))
  {
    var s' := Polled(s, d);
    PollTables(s, d);
    if s'.log == s.log {
      CountsFramed(s.tasks, d, s.tasks[d].(polling := false), s.log);
    } else {
      CountsAppend(s.tasks, s'.tasks, s.log, Interrupt(d));
      assert Counted(s.log, d, s.tasks[d]);
      OrderedAppend(s.info, s.log, Interrupt(d));
    }
  }

  lemma DrainStep(s: State, h: nat)
    requires Inv(s) && Enabled(s, Drain(h))
    ensures Inv(Drained(s, h))
  {
    var s', claimed := Drained(s, h), Claimable(s, h);
    DrainHas(s, h);
    DrainTables(s, s', h, claimed);
    OpenIsRunning(s.tasks, s.log, h);
    FoldsOrdered(s, h, claimed);
    DrainCounts(s, s', h, claimed);
  }

  lemma AskStep(s: State, asking: set<string>)
    requires Inv(s)
    ensures Inv(s.(asking := asking))
  {
    var s' := s.(asking := asking);
    forall d | d in s'.tasks
      ensures TaskOk(s', d)
    {
      assert TaskOk(s, d);
    }
  }

  lemma StepKeeps(s: State, a: Action)
    requires Inv(s) && Enabled(s, a)
    ensures Inv(Next(s, a))
  {
    match a {
      case Arrive(d, what) => ArriveStep(s, d, what);
      case Acquire(d) => AcquireStep(s, d);
      case Drain(d) => DrainStep(s, d);
      case Deliver(d) => DepartStep(s, d, Folded);
      case Finish(d) => ReleaseStep(s, d);
      case Poll(d) => PollStep(s, d);
      case Cancel(d) => if s.tasks[d].phase == Waiting { DepartStep(s, d, Dropped); } else { ReleaseStep(s, d); }
      case Ask(user) => AskStep(s, s.asking + {user});
      case Answer(user) => AskStep(s, s.asking - {user});
    }
  }

  lemma {:induction false} RunKeeps(s: State, run: seq<Action>)
    requires Inv(s) && Legal(s, run)
    ensures Inv(Exec(s, run))
    decreases |run|
  {
    if run != [] {
      StepKeeps(s, run[0]);
      RunKeeps(Next(s, run[0]), run[1..]);
    }
  }

  lemma InitKeeps()
    ensures Inv(Init)
  {
  }

  // Whatever the schedule: a dispatch starts at most one turn and is claimed at
  // most once, and each event of the log met its conditions when it happened.
  lemma EveryRun(run: seq<Action>)
    requires Legal(Init, run)
    ensures var s := Exec(Init, run);
            && Ordered(s.info, s.log)
            && (forall d :: d in s.tasks ==> Turns(s.log, d) <= 1 && Claims(s.log, d) <= 1)
  {
    InitKeeps();
    RunKeeps(Init, run);
    var s := Exec(Init, run);
    forall d | d in s.tasks
      ensures Turns(s.log, d) <= 1 && Claims(s.log, d) <= 1
    {
      assert Counted(s.log, d, s.tasks[d]);
    }
  }

  // When a turn starts, every earlier turn of the same user has ended.
  lemma TurnsDoNotOverlap(run: seq<Action>, i: nat, j: nat)
    requires Legal(Init, run)
    requires i < j < |Exec(Init, run).log| && Exec(Init, run).log[i].Turn? && Exec(Init, run).log[j].Turn?
    requires var s := Exec(Init, run);
             s.log[i].d in s.info && s.log[j].d in s.info ==> s.info[s.log[i].d].user == s.info[s.log[j].d].user
    ensures End(Exec(Init, run).log[i].d) in Exec(Init, run).log[..j]
  {
    EveryRun(run);
    var s := Exec(Init, run);
    assert EventOk(s.info, s.log[..i], s.log[i]) && EventOk(s.info, s.log[..j], s.log[j]);
    assert s.log[..j][i] == s.log[i];
  }

  // ---- Exactly once ---------------------------------------------------------

  // The hypothesis on delivery: when a turn gives up the lock, no dispatch of its
  // user is still waiting for the cancellation that its claim caused.
  ghost predicate DeliveredBefore(s: State, a: Action)
    requires Enabled(s, a)
  {
    (a.Finish? || (a.Cancel? && s.tasks[a.d].phase == Running)) ==>
      forall d :: Has(s, d) && s.tasks[d].phase == Waiting && s.tasks[d].consumed ==> s.info[d].user != s.info[a.d].user
  }

  ghost predicate Prompt(s: State, run: seq<Action>)
    requires Legal(s, run)
    decreases |run|
  {
    run != [] ==> DeliveredBefore(s, run[0]) && Prompt(Next(s, run[0]), run[1..])
  }

  // A claimed dispatch has not started, and while it waits the lock is taken.
  ghost predicate ClaimedStaysOut(s: State) {
    forall d :: Has(s, d) && s.tasks[d].consumed ==>
      && s.tasks[d].phase != Running && s.tasks[d].phase != Ended
      && (s.tasks[d].phase == Waiting ==> s.info[d].user in s.holder)
  }

  lemma StaysOutDrain(s: State, s': State, h: nat, claimed: seq<nat>)
    requires ClaimedStaysOut(s) && Has(s, h) && s.info[h].user in s.holder && DrainEffect(s, s', h, claimed)
    ensures ClaimedStaysOut(s')
  {
    forall d | Has(s', d) && s'.tasks[d].consumed
      ensures s'.tasks[d].phase != Running && s'.tasks[d].phase != Ended
      ensures s'.tasks[d].phase == Waiting ==> s'.info[d].user in s'.holder
    {
      assert Has(s, d) && (d in claimed ==> MayClaim(s, d, h));
    }
  }

  lemma StaysOutStep(s: State, a: Action)
    requires Inv(s) && ClaimedStaysOut(s) && Enabled(s, a) && DeliveredBefore(s, a)
    ensures ClaimedStaysOut(Next(s, a))
  {
    if a.Drain? {
      DrainHas(s, a.d);
      assert TaskOk(s, a.d);
      StaysOutDrain(s, Drained(s, a.d), a.d, Claimable(s, a.d));
    } else {
      StaysOutOther(s, a);
    }
  }

  lemma StaysOutOther(s: State, a: Action)
    requires ClaimedStaysOut(s) && Enabled(s, a) && DeliveredBefore(s, a) && !a.Drain?
    ensures ClaimedStaysOut(Next(s, a))
  {
    var s' := Next(s, a);
    forall d | Has(s', d) && s'.tasks[d].consumed
      ensures s'.tasks[d].phase != Running && s'.tasks[d].phase != Ended
      ensures s'.tasks[d].phase == Waiting ==> s'.info[d].user in s'.holder
    {
      assert Has(s, d);
    }
  }

  lemma {:induction false} StaysOutRun(s: State, run: seq<Action>)
    requires Inv(s) && ClaimedStaysOut(s) && Legal(s, run) && Prompt(s, run)
    ensures Inv(Exec(s, run)) && ClaimedStaysOut(Exec(s, run))
    decreases |run|
  {
    if run != [] {
      StepKeeps(s, run[0]);
      StaysOutStep(s, run[0]);
      StaysOutRun(Next(s, run[0]), run[1..]);
    }
  }

  // A dispatch never both runs and is claimed; one that is over did exactly one
  // of the two, unless its task was cancelled from outside while it waited.
  lemma ExactlyOnce(run: seq<Action>, d: nat)
    requires Legal(Init, run) && Prompt(Init, run) && d in Exec(Init, run).tasks
    ensures var s := Exec(Init, run); var log := s.log;
            && Turns(log, d) + Claims(log, d) <= 1
            && (s.tasks[d].phase == Ended ==> Turns(log, d) == Ends(log, d) == 1 && Claims(log, d) == 0)
            && (s.tasks[d].phase == Folded ==> Turns(log, d) == 0 && Claims(log, d) == 1)
  {
    InitKeeps();
    StaysOutRun(Init, run);
    var s := Exec(Init, run);
    assert Counted(s.log, d, s.tasks[d]) && TaskOk(s, d) && Has(s, d);
  }

  // Someone who was claimed could start a turn of its own next.
  ghost predicate ClaimedMayStart(s: State) {
    exists d :: Enabled(s, Acquire(d)) && s.tasks[d].consumed
  }

  lemma NoneMayStart(s: State)
    requires ClaimedStaysOut(s)
    ensures !ClaimedMayStart(s)
  {
    forall d | Enabled(s, Acquire(d))
      ensures !s.tasks[d].consumed
    {
      assert Has(s, d);
    }
  }

  lemma LeftWaiting(s: State, a: Action, d: nat)
    requires Enabled(s, a) && (a.Finish? || (a.Cancel? && s.tasks[a.d].phase == Running))
    requires Has(s, d) && s.tasks[d].phase == Waiting && s.tasks[d].consumed && s.info[d].user == s.info[a.d].user
    ensures ClaimedMayStart(Next(s, a))
  {
    assert Next(s, a) == Released(s, a.d);
    assert Enabled(Next(s, a), Acquire(d));
  }

  // The hypothesis is exact: a claimed dispatch can start its own turn next if and
  // only if the action just taken gave up the lock too early.
  lemma ClaimedStartsIff(s: State, a: Action)
    requires Inv(s) && ClaimedStaysOut(s) && Enabled(s, a)
    ensures ClaimedMayStart(Next(s, a)) <==> !DeliveredBefore(s, a)
  {
    if DeliveredBefore(s, a) {
      StaysOutStep(s, a);
      NoneMayStart(Next(s, a));
    } else {
      var d :| Has(s, d) && s.tasks[d].phase == Waiting && s.tasks[d].consumed && s.info[d].user == s.info[a.d].user;
      LeftWaiting(s, a, d);
    }
  }

  lemma {:induction false} OneMore(s: State, run: seq<Action>, a: Action)
    requires Legal(s, run) && Enabled(Exec(s, run), a)
    ensures Legal(s, run + [a]) && Exec(s, run + [a]) == Next(Exec(s, run), a)
    decreases |run|
  {
    if run == [] {
      assert (run + [a])[1..] == [];
    } else {
      OneMore(Next(s, run[0]), run[1..], a);
      assert (run + [a])[1..] == run[1..] + [a];
    }
  }

  lemma ThatLog(before: seq<Event>, log: seq<Event>)
    requires before == [Turn(0), Fold(1, 0)] && log == (before + [End(0)]) + [Turn(1)]
    ensures Turns(log, 1) == 1 && Claims(log, 1) == 1
  {
    ThatStart(before);
    AppendTwo(before, End(0), Turn(1), 1);
  }

  lemma ThatStart(log: seq<Event>)
    requires log == [Turn(0), Fold(1, 0)]
    ensures Turns(log, 1) == 0 && Claims(log, 1) == 1
  {
    var none: seq<Event> := [];
    AppendTwo(none, Turn(0), Fold(1, 0), 1);
    assert log == none + [Turn(0)] + [Fold(1, 0)];
  }

  lemma AppendTwo(log: seq<Event>, e: Event, f: Event, d: nat)
    ensures Turns(log + [e] + [f], d) == Turns(log, d) + (if e == Turn(d) then 1 else 0) + (if f == Turn(d) then 1 else 0)
    ensures Claims(log + [e] + [f], d) ==
      Claims(log, d) + (if e.Fold? && e.d == d then 1 else 0) + (if f.Fold? && f.d == d then 1 else 0)
  {
    AppendOne(log, e, d);
    AppendOne(log + [e], f, d);
  }

  // A run of the unconstrained protocol in which dispatch 1 is both claimed by
  // the turn of dispatch 0 and starts a turn of its own.
  lemma ClaimedAndStarted() returns (run: seq<Action>)
    ensures Legal(Init, run) && Turns(Exec(Init, run).log, 1) == 1 && Claims(Exec(Init, run).log, 1) == 1
  {
    run := LeftEarly();
    var s := Exec(Init, run);
    OneMore(Init, run, Acquire(1));
    run := run + [Acquire(1)];
    assert Exec(Init, run).log == s.log + [Turn(1)];
    ThatLog([Turn(0), Fold(1, 0)], Exec(Init, run).log);
  }

  // The lock is given up while the claimed dispatch still waits for it.
  lemma LeftEarly() returns (run: seq<Action>)
    ensures Legal(Init, run)
    ensures var s := Exec(Init, run);
            Has(s, 1) && s.tasks[1].phase == Waiting && s.holder == map[] && s.log == [Turn(0), Fold(1, 0)] + [End(0)]
  {
    run := OneClaimed();
    var s := Exec(Init, run);
    OneMore(Init, run, Finish(0));
    run := run + [Finish(0)];
    assert Exec(Init, run) == Released(s, 0);
    assert s.holder - {"u"} == map[];
  }

  lemma OneClaimed() returns (run: seq<Action>)
    ensures Legal(Init, run)
    ensures var s, what := Exec(Init, run), Dispatch("u", "s", "telegram", "");
            && s.info == map[0 := what, 1 := what] && s.holder == map["u" := 0]
            && s.tasks == map[0 := Task(Running, false, false), 1 := Task(Waiting, true, true)] && s.log == [Turn(0), Fold(1, 0)]
  {
    run := TwoArrived();
    var s := Exec(Init, run);
    assert Foldable(s.info[0]) by {
      assert |s.info[0].channel| == 8;
    }
    assert Claimable(s, 0) == [1];
    assert Folds([1], 0) == [Fold(1, 0)] by {
      assert [1][..0] == [];
    }
    OneMore(Init, run, Drain(0));
    run := run + [Drain(0)];
    assert Exec(Init, run) == Drained(s, 0);
  }

  // Two messages of one conversation; the first has the lock, the second waits.
  lemma TwoArrived() returns (run: seq<Action>)
    ensures Legal(Init, run)
    ensures var s, what := Exec(Init, run), Dispatch("u", "s", "telegram", "");
            && s.info == map[0 := what, 1 := what] && s.holder == map["u" := 0] && s.inbox == map["u" := [1]]
            && s.tasks == map[0 := Task(Running, false, false), 1 := Task(Waiting, false, true)] && s.log == [Turn(0)]
  {
    var what := Dispatch("u", "s", "telegram", "");
    assert Foldable(what) by {
      assert |what.channel| == 8;
    }
    run := [];
    OneMore(Init, run, Arrive(0, what));
    run := run + [Arrive(0, what)];
    assert Entries(Init.inbox, "u") + [0] == [0];
    OneMore(Init, run, Arrive(1, what));
    run := run + [Arrive(1, what)];
    assert [0] + [1] == [0, 1];
    OneMore(Init, run, Acquire(0));
    run := run + [Acquire(0)];
    assert Without([0, 1], 0) == [1];
  }

  // ---- Nobody is forgotten --------------------------------------------------

  // A waiting dispatch is on its way out because it was claimed, or its poll still
  // looks for a stale approval, or that poll has already interrupted one and does
  // not look again.  It is reachable by the running turn exactly when it may fold,
  // and either the lock is free for it or the turn holding it can finish.
  lemma WaitingIsServed(run: seq<Action>, d: nat)
    requires Legal(Init, run) && Has(Exec(Init, run), d) && Exec(Init, run).tasks[d].phase == Waiting
    ensures var s := Exec(Init, run); var t, user := s.tasks[d], s.info[d].user;
            && (t.consumed || t.polling || Interrupt(d) in s.log)
            && (d in Entries(s.inbox, user) <==> Foldable(s.info[d]) && !t.consumed)
            && Enabled(s, if user in s.holder then Finish(s.holder[user]) else Acquire(d))
  {
    InitKeeps();
    RunKeeps(Init, run);
    assert TaskOk(Exec(Init, run), d);
  }

  // ---- Who stays out of the inbox -------------------------------------------

  // In every run a webchat request, and a dispatch without a channel, is never offered
  // to a running turn, never claimed, and never claims.
  lemma WebchatNeverFolds(run: seq<Action>, d: nat)
    requires Legal(Init, run) && Has(Exec(Init, run), d)
    requires Exec(Init, run).info[d].request != "" || Exec(Init, run).info[d].channel == ""
    ensures var s := Exec(Init, run);
            && (forall user :: d !in Entries(s.inbox, user))
            && !s.tasks[d].consumed && s.tasks[d].phase != Folded
            && (forall i :: 0 <= i < |s.log| && s.log[i].Fold? ==> s.log[i].d != d && s.log[i].into != d)
  {
    InitKeeps();
    RunKeeps(Init, run);
    var s := Exec(Init, run);
    StaysOut(s, d);
    forall i | 0 <= i < |s.log| && s.log[i].Fold?
      ensures s.log[i].d != d && s.log[i].into != d
    {
      assert EventOk(s.info, s.log[..i], s.log[i]);
    }
  }

  lemma StaysOut(s: State, d: nat)
    requires Tables(s) && Has(s, d) && (s.info[d].request != "" || s.info[d].channel == "")
    ensures (forall user :: d !in Entries(s.inbox, user)) && !s.tasks[d].consumed && s.tasks[d].phase != Folded
  {
    assert TaskOk(s, d);
  }

  // In every run a dispatch is offered exactly while it waits, unclaimed, is from a
  // channel and is no webchat request.
  lemma OfferedIff(run: seq<Action>, d: nat, user: string)
    requires Legal(Init, run) && Has(Exec(Init, run), d)
    ensures var s := Exec(Init, run);
            d in Entries(s.inbox, user) <==>
            && user == s.info[d].user && s.tasks[d].phase == Waiting && !s.tasks[d].consumed
            && s.info[d].channel != "" && s.info[d].request == ""
  {
    InitKeeps();
    RunKeeps(Init, run);
    OfferedTask(Exec(Init, run), d, user);
  }

  lemma OfferedTask(s: State, d: nat, user: string)
    requires Tables(s) && Has(s, d)
    ensures d in Entries(s.inbox, user) <==>
      && user == s.info[d].user && s.tasks[d].phase == Waiting && !s.tasks[d].consumed
      && s.info[d].channel != "" && s.info[d].request == ""
  {
    assert TaskOk(s, d);
  }

  // ---- The poll interrupts at most once -------------------------------------

  function Interrupts(log: seq<Event>, d: nat): nat { multiset(log)[Interrupt(d)] }

  // A poll that is alive has not interrupted yet, and one that has is over.
  predicate PollOk(log: seq<Event>, d: nat, t: Task) {
    Interrupts(log, d) <= if t.polling then 0 else 1
  }

  ghost predicate PollsOnce(s: State) {
    forall d :: d in s.tasks ==> PollOk(s.log, d, s.tasks[d])
  }

  lemma {:induction false} FoldsInterruptNone(claimed: seq<nat>, h: nat, d: nat)
    ensures Interrupts(Folds(claimed, h), d) == 0
  {
    if claimed != [] {
      FoldsInterruptNone(claimed[..|claimed| - 1], h, d);
    }
  }

  lemma PolledOk(s: State, p: nat, d: nat)
    requires Enabled(s, Poll(p)) && d in s.tasks && PollOk(s.log, d, s.tasks[d]) && PollOk(s.log, p, s.tasks[p])
    ensures d in Polled(s, p).tasks && PollOk(Polled(s, p).log, d, Polled(s, p).tasks[d])
  {
  }

  lemma DrainedOk(s: State, h: nat, d: nat)
    requires Enabled(s, Drain(h)) && d in s.tasks && PollOk(s.log, d, s.tasks[d])
    ensures d in Drained(s, h).tasks && PollOk(Drained(s, h).log, d, Drained(s, h).tasks[d])
  {
    FoldsInterruptNone(Claimable(s, h), h, d);
  }

  lemma OtherOk(s: State, a: Action, d: nat)
    requires Enabled(s, a) && d in s.tasks && PollOk(s.log, d, s.tasks[d]) && !a.Poll? && !a.Drain?
    ensures d in Next(s, a).tasks && PollOk(Next(s, a).log, d, Next(s, a).tasks[d])
  {
  }

  lemma PollOkStep(s: State, a: Action, d: nat)
    requires Counts(s.tasks, s.log) && PollsOnce(s) && Enabled(s, a) && d in Next(s, a).tasks
    ensures PollOk(Next(s, a).log, d, Next(s, a).tasks[d])
  {
    if d !in s.tasks {
      assert Interrupt(d) !in multiset(s.log);
    } else if a.Poll? {
      assert PollOk(s.log, d, s.tasks[d]) && PollOk(s.log, a.d, s.tasks[a.d]);
      PolledOk(s, a.d, d);
    } else if a.Drain? {
      assert PollOk(s.log, d, s.tasks[d]);
      DrainedOk(s, a.d, d);
    } else {
      assert PollOk(s.log, d, s.tasks[d]);
      OtherOk(s, a, d);
    }
  }

  lemma {:induction false} PollsOnceRun(s: State, run: seq<Action>)
    requires Inv(s) && PollsOnce(s) && Legal(s, run)
    ensures Inv(Exec(s, run)) && PollsOnce(Exec(s, run))
    decreases |run|
  {
    if run != [] {
      StepKeeps(s, run[0]);
      forall d | d in Next(s, run[0]).tasks
        ensures PollOk(Next(s, run[0]).log, d, Next(s, run[0]).tasks[d])
      {
        PollOkStep(s, run[0], d);
      }
      PollsOnceRun(Next(s, run[0]), run[1..]);
    }
  }

  // However many approvals are asked for meanwhile, a waiting message interrupts
  // one of them at most.
  lemma InterruptsAtMostOnce(run: seq<Action>, d: nat)
    requires Legal(Init, run)
    ensures Interrupts(Exec(Init, run).log, d) <= 1
  {
    InitKeeps();
    PollsOnceRun(Init, run);
    var s := Exec(Init, run);
    if d in s.tasks {
      assert PollOk(s.log, d, s.tasks[d]);
    } else {
      assert Interrupt(d) !in multiset(s.log);
    }
  }

  // The poll of d runs next and takes the pending approval of its user away.
  predicate TakesAway(s: State, d: nat) {
    Enabled(s, Poll(d)) && s.info[d].user in s.asking && s.info[d].user !in Next(s, Poll(d)).asking
  }

  lemma TakesAwayOf(s: State, d: nat)
    requires Has(s, d) && s.tasks[d].phase == Waiting && s.info[d].user in s.asking
    requires !s.tasks[d].polling ==> s.tasks[d].consumed || Interrupt(d) in s.log
    requires PollOk(s.log, d, s.tasks[d])
    ensures TakesAway(s, d) <==> !s.tasks[d].consumed && Interrupt(d) !in s.log
  {
    assert Interrupt(d) in s.log <==> Interrupt(d) in multiset(s.log);
  }

  // A waiting message can take a pending approval of its user away exactly while
  // it is unclaimed and has not done so before.
  lemma TakesAwayIff(run: seq<Action>, d: nat)
    requires Legal(Init, run) && Has(Exec(Init, run), d) && Exec(Init, run).tasks[d].phase == Waiting
    requires Exec(Init, run).info[d].user in Exec(Init, run).asking
    ensures TakesAway(Exec(Init, run), d) <==> !Exec(Init, run).tasks[d].consumed && Interrupt(d) !in Exec(Init, run).log
  {
    InitKeeps();
    PollsOnceRun(Init, run);
    var s := Exec(Init, run);
    assert TaskOk(s, d);
    TakesAwayOf(s, d);
  }

  // A run in which the message that interrupted one approval waits, unclaimed and
  // without a poll, behind the next.
  lemma SecondApprovalWaits() returns (run: seq<Action>)
    ensures Legal(Init, run)
    ensures var s := Exec(Init, run);
            && Has(s, 1) && s.tasks[1] == Task(Waiting, false, false) && s.info[1].user in s.asking
            && s.log == [Turn(0), Interrupt(1)]
  {
    run := TwoArrived();
    OneMore(Init, run, Ask("u"));
    run := run + [Ask("u")];
    OneMore(Init, run, Poll(1));
    run := run + [Poll(1)];
    assert [Turn(0)] + [Interrupt(1)] == [Turn(0), Interrupt(1)];
    OneMore(Init, run, Ask("u"));
    run := run + [Ask("u")];
  }

  lemma ClaimableExact(s: State, h: nat, d: nat)
    requires Tables(s) && h in s.info
    ensures d in Claimable(s, h) <==> MayClaim(s, d, h)
  {
    KeepMembers(Queue(s, h), Matching(s, h));
    if MayClaim(s, d, h) {
      assert TaskOk(s, d);
    } else {
      ClaimableTasks(s, h);
    }
  }

  // A drain claims every dispatch that waits, may fold, is unclaimed, and shares
  // user, session and channel with the turn, and no other.
  lemma DrainClaims(run: seq<Action>, h: nat, d: nat)
    requires Legal(Init, run) && Enabled(Exec(Init, run), Drain(h)) && d in Exec(Init, run).tasks
    ensures var s, s' := Exec(Init, run), Next(Exec(Init, run), Drain(h));
            && s'.tasks[d].consumed == (s.tasks[d].consumed || MayClaim(s, d, h))
            && Claims(s'.log, d) == Claims(s.log, d) + (if MayClaim(s, d, h) then 1 else 0)
  {
    InitKeeps();
    RunKeeps(Init, run);
    var s := Exec(Init, run);
    ClaimableExact(s, h, d);
    DrainedInbox(s, h);
    AppendFolds(s.log, Claimable(s, h), h, d);
  }

  // Once no dispatch waits or runs, no lock is held, no poll is alive and the
  // inbox has no entry for anybody.
  lemma NothingLeaks(run: seq<Action>)
    requires Legal(Init, run)
    requires forall d :: d in Exec(Init, run).tasks ==> Exec(Init, run).tasks[d].phase !in {Waiting, Running}
    ensures var s := Exec(Init, run);
            && s.holder == map[] && (forall u, d :: d !in Entries(s.inbox, u))
            && (forall d :: d in s.tasks ==> !s.tasks[d].polling)
  {
    InitKeeps();
    RunKeeps(Init, run);
    var s := Exec(Init, run);
    assert s.holder.Keys == {};
    forall d | d in s.tasks
      ensures !s.tasks[d].polling && d !in Entries(s.inbox, s.info[d].user)
    {
      assert TaskOk(s, d);
    }
  }

  // A dispatch that waits or runs can be cancelled at any time; then it is over, out of
  // the inbox, and does not hold the lock.
  lemma CancelEnds(run: seq<Action>, d: nat)
    requires Legal(Init, run) && Has(Exec(Init, run), d) && Exec(Init, run).tasks[d].phase in {Waiting, Running}
    ensures var s := Exec(Init, run);
            && Enabled(s, Cancel(d))
            && var s' := Next(s, Cancel(d)); var user := s.info[d].user;
               && s'.tasks[d].phase == (if s.tasks[d].phase == Waiting then Dropped else Ended)
               && d !in Entries(s'.inbox, user) && (user in s'.holder ==> s'.holder[user] != d)
  {
    InitKeeps();
    RunKeeps(Init, run);
    var s := Exec(Init, run);
    StepKeeps(s, Cancel(d));
    assert TaskOk(s, d) && TaskOk(Next(s, Cancel(d)), d);
  }

  // ---- Which approvals are pending ------------------------------------------

  // The user answers, or the poll of an unclaimed message of the user interrupts.
  predicate Settles(s: State, a: Action, user: string) {
    || (a.Answer? && a.user == user)
    || (a.Poll? && Has(s, a.d) && s.info[a.d].user == user && !s.tasks[a.d].consumed)
  }

  predicate Unsettled(s: State, run: seq<Action>, user: string)
    requires Legal(s, run)
    decreases |run|
  {
    run != [] ==> !Settles(s, run[0], user) && Unsettled(Next(s, run[0]), run[1..], user)
  }

  predicate AsksLast(s: State, run: seq<Action>, user: string)
    requires Legal(s, run)
    decreases |run|
  {
    run != [] &&
    ((run[0] == Ask(user) && Unsettled(Next(s, run[0]), run[1..], user)) || AsksLast(Next(s, run[0]), run[1..], user))
  }

  lemma AskingStep(s: State, a: Action, user: string)
    requires Enabled(s, a)
    ensures user in Next(s, a).asking <==> a == Ask(user) || (user in s.asking && !Settles(s, a, user))
  {
  }

  lemma {:induction false} AskingRun(s: State, run: seq<Action>, user: string)
    requires Legal(s, run)
    ensures user in Exec(s, run).asking <==> AsksLast(s, run, user) || (user in s.asking && Unsettled(s, run, user))
    decreases |run|
  {
    if run != [] {
      AskingStep(s, run[0], user);
      AskingRun(Next(s, run[0]), run[1..], user);
    }
  }

  // In every run an approval of a user is pending if and only if a turn asked for it and
  // since then neither the user answered nor the poll of an unclaimed message of the
  // user interrupted.
  lemma PendingIffAskedLast(run: seq<Action>, user: string)
    requires Legal(Init, run)
    ensures user in Exec(Init, run).asking <==> AsksLast(Init, run, user)
  {
    AskingRun(Init, run, user);
  }

  // A poll that finds no approval pending goes on as if it had not looked; one that finds
  // one takes it away, unless its message was claimed.
  lemma PollLogsIff(run: seq<Action>, d: nat)
    requires Legal(Init, run) && Enabled(Exec(Init, run), Poll(d))
    ensures var s, s' := Exec(Init, run), Next(Exec(Init, run), Poll(d));
            && s.tasks[d].phase == Waiting
            && (s'.log == s.log + [Interrupt(d)] <==> !s.tasks[d].consumed && AsksLast(Init, run, s.info[d].user))
            && (!s.tasks[d].consumed && !AsksLast(Init, run, s.info[d].user) ==> s' == s)
  {
    InitKeeps();
    RunKeeps(Init, run);
    PendingIffAskedLast(run, Exec(Init, run).info[d].user);
    PollOf(Exec(Init, run), d);
  }

  lemma PollOf(s: State, d: nat)
    requires Tables(s) && Enabled(s, Poll(d))
    ensures s.tasks[d].phase == Waiting
    ensures Next(s, Poll(d)).log == s.log + [Interrupt(d)] <==> !s.tasks[d].consumed && s.info[d].user in s.asking
    ensures !s.tasks[d].consumed && s.info[d].user !in s.asking ==> Next(s, Poll(d)) == s
  {
    assert TaskOk(s, d);
    assert |s.log + [Interrupt(d)]| == |s.log| + 1;
  }
}
