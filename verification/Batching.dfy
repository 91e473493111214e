/**
 Grouping rapid-fire messages of one user before they are dispatched.

 An enqueue appends to the user's open batch, cancels its timer and starts a new
 one.  A timer that fires takes the whole batch and dispatches it.  Both are
 single steps: each runs under one lock and suspends nowhere inside it.
 */
module Batching {

  datatype Option<+T> = None | Some(value: T)

  datatype Entry = Entry(session: string, message: nat, mediaUrls: seq<string>, downloaded: seq<nat>)

  datatype BatchState = BatchState(entries: seq<Entry>, timer: Option<nat>, channel: string, request: string)

  // What the dispatch of a flushed batch is given.
  datatype Batch = Batch(user: string, session: string, message: nat, mediaUrls: seq<string>, channel: string,
                         request: string, downloaded: seq<nat>, messages: seq<nat>)

  // timers maps each timer task that is neither finished nor cancelled to its user.
  datatype Tables = Tables(states: map<string, BatchState>, timers: map<nat, string>, nextTimer: nat)

  function Open(t: Tables, user: string): seq<Entry> {
    if user in t.states then t.states[user].entries else []
  }

  function Messages(entries: seq<Entry>): seq<nat> {
    seq(|entries|, i requires 0 <= i < |entries| => entries[i].message)
  }

  function MediaOf(entries: seq<Entry>): seq<string> {
    if entries == [] then [] else MediaOf(entries[..|entries| - 1]) + entries[|entries| - 1].mediaUrls
  }

  function DownloadedOf(entries: seq<Entry>): seq<nat> {
    if entries == [] then [] else DownloadedOf(entries[..|entries| - 1]) + entries[|entries| - 1].downloaded
  }

  function Enqueued(t: Tables, user: string, entry: Entry, channel: string, request: string): Tables {
    var stale := if user in t.states && t.states[user].timer.Some? then {t.states[user].timer.value} else {};
    Tables(t.states[user := BatchState(Open(t, user) + [entry], Some(t.nextTimer), channel, request)],
           (t.timers - stale)[t.nextTimer := user], t.nextTimer + 1)
  }

  function Flushed(t: Tables, timer: nat): Tables
    requires timer in t.timers
  {
    t.(states := t.states - {t.timers[timer]}, timers := t.timers - {timer})
  }

  function Combined(user: string, s: BatchState): Batch
    requires s.entries != []
  {
    var last := s.entries[|s.entries| - 1];
    Batch(user, last.session, last.message, MediaOf(s.entries), s.channel, s.request,
          DownloadedOf(s.entries), Messages(s.entries))
  }

  // The live timers are exactly the timers of the open batches, one each, and no
  // open batch is empty.
  ghost predicate Valid(t: Tables) {
    && (forall u :: u in t.states ==>
          && t.states[u].entries != [] && t.states[u].timer.Some?
          && t.states[u].timer.value in t.timers && t.timers[t.states[u].timer.value] == u)
    && (forall k :: k in t.timers ==>
          k < t.nextTimer && t.timers[k] in t.states && t.states[t.timers[k]].timer == Some(k))
  }

  class MessageBatcher {
    var states: map<string, BatchState>
    var timers: map<nat, string>
    var nextTimer: nat

    ghost function View(): Tables
      reads this
    {
      Tables(states, timers, nextTimer)
    }

    constructor ()
      ensures View() == Tables(map[], map[], 0) && Valid(View())
    {
      states, timers, nextTimer := map[], map[], 0;
    }

    method Enqueue(user: string, entry: Entry, channel: string, request: string)
      requires Valid(View())
      modifies this
      ensures View() == Enqueued(old(View()), user, entry, channel, request) && Valid(View())
      // The timer it cancels, if any, has not fired: its batch is the one being extended.
      ensures forall k :: k in old(timers) && k !in timers ==> old(timers)[k] == user && old(states)[user].timer == Some(k)
    {
      var state := if user in states then states[user] else BatchState([], None, "", "");
      state := state.(entries := state.entries + [entry]);
      state := state.(channel := channel, request := request);
      if state.timer.Some? {
        timers := timers - {state.timer.value};
      }
      state := state.(timer := Some(nextTimer));
      timers := timers[nextTimer := user];
      nextTimer := nextTimer + 1;
      states := states[user := state];
    }

    // The timer's task takes the batch and hands it over; the source's branches
    // for a missing or empty batch are never reached.
    method Flush(timer: nat) returns (batch: Batch)
      requires Valid(View()) && timer in timers
      modifies this
      ensures View() == Flushed(old(View()), timer) && Valid(View())
      ensures batch == Combined(old(timers)[timer], old(states)[old(timers)[timer]])
    {
      var user := timers[timer];
      timers := timers - {timer};
      var state := states[user];
      states := states - {user};
      var last := state.entries[|state.entries| - 1];
      var media, downloaded := [], [];
      for i := 0 to |state.entries|
        invariant media == MediaOf(state.entries[..i]) && downloaded == DownloadedOf(state.entries[..i])
      {
        assert state.entries[..i + 1][..i] == state.entries[..i];
        media := media + state.entries[i].mediaUrls;
        downloaded := downloaded + state.entries[i].downloaded;
      }
      assert state.entries[..|state.entries|] == state.entries;
      batch := Batch(user, last.session, last.message, media, state.channel, state.request,
                     downloaded, Messages(state.entries));
    }
  }

  // ---- Runs ------------------------------------------------------------------

  datatype Action =
    | Enqueue(user: string, entry: Entry, channel: string, request: string)
    | Fire(timer: nat)

  // arrived and taken record, in order, what was enqueued and what was dispatched.
  datatype State = State(t: Tables, arrived: seq<(string, Entry)>, taken: seq<(string, seq<Entry>)>, batches: seq<Batch>)

  const Init := State(Tables(map[], map[], 0), [], [], [])

  predicate Enabled(s: State, a: Action) {
    a.Fire? ==> a.timer in s.t.timers && s.t.timers[a.timer] in s.t.states && s.t.states[s.t.timers[a.timer]].entries != []
  }

  function Next(s: State, a: Action): State
    requires Enabled(s, a)
  {
    match a
    case Enqueue(user, entry, channel, request) =>
      s.(t := Enqueued(s.t, user, entry, channel, request), arrived := s.arrived + [(user, entry)])
    case Fire(timer) =>
      var user := s.t.timers[timer];
      s.(t := Flushed(s.t, timer), taken := s.taken + [(user, Open(s.t, user))],
         batches := s.batches + [Combined(user, s.t.states[user])])
  }

  predicate Legal(s: State, run: seq<Action>)
    decreases |run|
  {
    run == [] || (Enabled(s, run[0]) && Legal(Next(s, run[0]), run[1..]))
  }

  function Exec(s: State, run: seq<Action>): State
    requires Legal(s, run)
    decreases |run|
  {
    if run == [] then s else Exec(Next(s, run[0]), run[1..])
  }

  function Of(arrived: seq<(string, Entry)>, user: string): seq<Entry> {
    if arrived == [] then []
    else
      var last := arrived[|arrived| - 1];
      Of(arrived[..|arrived| - 1], user) + (if last.0 == user then [last.1] else [])
  }

  function Dispatched(taken: seq<(string, seq<Entry>)>, user: string): seq<Entry> {
    if taken == [] then []
    else
      var last := taken[|taken| - 1];
      Dispatched(taken[..|taken| - 1], user) + (if last.0 == user then last.1 else [])
  }

  // Batch i was built from the entries that were taken for it.
  ghost predicate BuiltFrom(b: Batch, taken: (string, seq<Entry>)) {
    && taken.1 != [] && b.user == taken.0 && b.messages == Messages(taken.1)
    && b.message == b.messages[|b.messages| - 1] && b.session == taken.1[|taken.1| - 1].session
    && b.mediaUrls == MediaOf(taken.1) && b.downloaded == DownloadedOf(taken.1)
  }

  ghost predicate Conserved(s: State) {
    && Valid(s.t) && |s.batches| == |s.taken|
    && (forall u :: Of(s.arrived, u) == Dispatched(s.taken, u) + Open(s.t, u))
    && (forall i :: 0 <= i < |s.batches| ==> BuiltFrom(s.batches[i], s.taken[i]))
  }

  lemma EnqueueKeeps(t: Tables, user: string, entry: Entry, channel: string, request: string)
    requires Valid(t)
    ensures Valid(Enqueued(t, user, entry, channel, request))
  {
  }

  lemma OfSnoc(arrived: seq<(string, Entry)>, x: (string, Entry), u: string)
    ensures Of(arrived + [x], u) == Of(arrived, u) + (if x.0 == u then [x.1] else [])
  {
    assert (arrived + [x])[..|arrived|] == arrived;
  }

  lemma DispatchedSnoc(taken: seq<(string, seq<Entry>)>, x: (string, seq<Entry>), u: string)
    ensures Dispatched(taken + [x], u) == Dispatched(taken, u) + (if x.0 == u then x.1 else [])
  {
    assert (taken + [x])[..|taken|] == taken;
  }

  lemma EnqueueConserves(s: State, user: string, entry: Entry, channel: string, request: string, u: string)
    requires Conserved(s)
    ensures var s' := Next(s, Enqueue(user, entry, channel, request));
            Of(s'.arrived, u) == Dispatched(s'.taken, u) + Open(s'.t, u)
  {
    OfSnoc(s.arrived, (user, entry), u);
  }

  lemma FireConserves(s: State, timer: nat, u: string)
    requires Conserved(s) && Enabled(s, Fire(timer))
    ensures var s' := Next(s, Fire(timer)); Of(s'.arrived, u) == Dispatched(s'.taken, u) + Open(s'.t, u)
  {
    var user := s.t.timers[timer];
    DispatchedSnoc(s.taken, (user, Open(s.t, user)), u);
  }

  lemma StepKeeps(s: State, a: Action)
    requires Conserved(s) && Enabled(s, a)
    ensures Conserved(Next(s, a))
  {
    var s' := Next(s, a);
    forall u ensures Of(s'.arrived, u) == Dispatched(s'.taken, u) + Open(s'.t, u) {
      match a
      case Enqueue(user, entry, channel, request) => EnqueueConserves(s, user, entry, channel, request, u);
      case Fire(timer) => FireConserves(s, timer, u);
    }
    match a
    case Enqueue(user, entry, channel, request) => EnqueueKeeps(s.t, user, entry, channel, request);
    case Fire(timer) => assert BuiltFrom(s'.batches[|s.batches|], s'.taken[|s.taken|]);
  }

  lemma {:induction false} RunKeeps(s: State, run: seq<Action>)
    requires Conserved(s) && Legal(s, run)
    ensures Conserved(Exec(s, run))
    decreases |run|
  {
    if run != [] {
      StepKeeps(s, run[0]);
      RunKeeps(Next(s, run[0]), run[1..]);
    }
  }

  // In every run the messages enqueued for a user are, in order, those of the
  // batches dispatched for the user followed by those of the open batch, and each
  // dispatched batch carries the media of all its entries.
  lemma Conservation(run: seq<Action>)
    requires Legal(Init, run)
    ensures Conserved(Exec(Init, run))
  {
    RunKeeps(Init, run);
  }

  // An open batch always has a live timer, that timer can fire, and firing it
  // dispatches everything that waits.
  lemma OpenBatchIsDispatched(run: seq<Action>, user: string)
    requires Legal(Init, run) && Open(Exec(Init, run).t, user) != []
    ensures var s := Exec(Init, run);
            exists k :: k in s.t.timers && s.t.timers[k] == user && Enabled(s, Fire(k))
              && Of(Next(s, Fire(k)).arrived, user) == Dispatched(Next(s, Fire(k)).taken, user)
  {
    Conservation(run);
    var s := Exec(Init, run);
    var k := s.t.states[user].timer.value;
    StepKeeps(s, Fire(k));
    assert Enabled(s, Fire(k));
  }

  // Every live timer belongs to an open batch, so no timer fires for nothing and
  // no cancelled timer's batch is lost.
  lemma TimersMatchBatches(run: seq<Action>, k: nat)
    requires Legal(Init, run) && k in Exec(Init, run).t.timers
    ensures Enabled(Exec(Init, run), Fire(k)) && Open(Exec(Init, run).t, Exec(Init, run).t.timers[k]) != []
  {
    Conservation(run);
  }

  // With no timer left everything enqueued has been dispatched.
  lemma QuietMeansDispatched(run: seq<Action>)
    requires Legal(Init, run) && Exec(Init, run).t.timers == map[]
    ensures forall u :: Of(Exec(Init, run).arrived, u) == Dispatched(Exec(Init, run).taken, u)
  {
    Conservation(run);
  }

  // ---- What a batch carries --------------------------------------------------------

  lemma Both<T>(a: seq<T>, b: seq<T>, c: seq<T>)
    ensures (a + b) + c == a + (b + c)
  {
  }

  lemma Front(a: seq<Entry>, b: seq<Entry>)
    requires b != []
    ensures (a + b)[..|a + b| - 1] == a + b[..|b| - 1] && (a + b)[|a + b| - 1] == b[|b| - 1]
  {
  }

  lemma {:induction false} MediaConcat(a: seq<Entry>, b: seq<Entry>)
    ensures MediaOf(a + b) == MediaOf(a) + MediaOf(b)
  {
    if b == [] {
      assert a + b == a;
    } else {
      Front(a, b);
      MediaConcat(a, b[..|b| - 1]);
      Both(MediaOf(a), MediaOf(b[..|b| - 1]), b[|b| - 1].mediaUrls);
    }
  }

  lemma {:induction false} DownloadedConcat(a: seq<Entry>, b: seq<Entry>)
    ensures DownloadedOf(a + b) == DownloadedOf(a) + DownloadedOf(b)
  {
    if b == [] {
      assert a + b == a;
    } else {
      Front(a, b);
      DownloadedConcat(a, b[..|b| - 1]);
      Both(DownloadedOf(a), DownloadedOf(b[..|b| - 1]), b[|b| - 1].downloaded);
    }
  }

  lemma MediaSnoc(a: seq<Entry>, e: Entry)
    ensures MediaOf(a + [e]) == MediaOf(a) + e.mediaUrls
    ensures DownloadedOf(a + [e]) == DownloadedOf(a) + e.downloaded
  {
    assert (a + [e])[..|a|] == a;
  }

  // The media of an entry stand behind those of the entries before it and in front of
  // those of the entries behind it.
  lemma MediaInOrder(before: seq<Entry>, e: Entry, after: seq<Entry>)
    ensures MediaOf(before + [e] + after) == MediaOf(before) + e.mediaUrls + MediaOf(after)
    ensures DownloadedOf(before + [e] + after) == DownloadedOf(before) + e.downloaded + DownloadedOf(after)
  {
    MediaSnoc(before, e);
    MediaConcat(before + [e], after);
    DownloadedConcat(before + [e], after);
  }

  lemma {:induction false} OneMore(s: State, run: seq<Action>, a: Action)
    requires Legal(s, run) && Enabled(Exec(s, run), a)
    ensures Legal(s, run + [a]) && Exec(s, run + [a]) == Next(Exec(s, run), a)
    decreases |run|
  {
    if run == [] {
      assert (run + [a])[1..] == [];
    } else {
      OneMore(Next(s, run[0]), run[1..], a);
      assert (run + [a])[1..] == run[1..] + [a];
    }
  }

  // A run in which two messages sent in a row are dispatched as one batch, by the
  // second timer; the first was cancelled.
  lemma TwoMessagesOneBatch(a: Entry, b: Entry) returns (run: seq<Action>)
    ensures Legal(Init, run) && Exec(Init, run).t.states == map[] && Exec(Init, run).t.timers == map[]
    ensures Exec(Init, run).batches ==
      [Batch("u", b.session, b.message, a.mediaUrls + b.mediaUrls, "sms", "", a.downloaded + b.downloaded, [a.message, b.message])]
  {
    run := BothEnqueued(a, b);
    var s := Exec(Init, run);
    OneMore(Init, run, Fire(1));
    run := run + [Fire(1)];
    TwoMedia(a, b);
    assert Messages([a, b]) == [a.message, b.message];
    assert s.t.timers - {1} == map[] && s.t.states - {"u"} == map[];
  }

  lemma TwoMedia(a: Entry, b: Entry)
    ensures MediaOf([a, b]) == a.mediaUrls + b.mediaUrls && DownloadedOf([a, b]) == a.downloaded + b.downloaded
  {
    assert [a, b][..1] == [a] && [a][..0] == [];
    assert MediaOf([a]) == a.mediaUrls && DownloadedOf([a]) == a.downloaded;
  }

  lemma BothEnqueued(a: Entry, b: Entry) returns (run: seq<Action>)
    ensures Legal(Init, run)
    ensures var s := Exec(Init, run);
            && s.t.states == map["u" := BatchState([a, b], Some(1), "sms", "")] && s.t.timers == map[1 := "u"] && s.batches == []
  {
    run := [];
    OneMore(Init, run, Enqueue("u", a, "sms", ""));
    run := run + [Enqueue("u", a, "sms", "")];
    assert Open(Init.t, "u") + [a] == [a];
    assert Exec(Init, run).t == Tables(map["u" := BatchState([a], Some(0), "sms", "")], map[0 := "u"], 1);
    OneMore(Init, run, Enqueue("u", b, "sms", ""));
    run := run + [Enqueue("u", b, "sms", "")];
    assert [a] + [b] == [a, b];
  }
}
