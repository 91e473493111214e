/**
 One round of tool calls: validation, permissions, approval, execution.

 Every call the model requested ends in one of seven ways and gets one result.
 Tools, stored permissions and the user's answers come from outside; nothing
 below depends on what they are.
 */
module ToolRound {
  import opened Messages
  import A = Approval

  datatype Level = Always | Ask | Never

  datatype Fate = Malformed | Unknown | Invalid | Forbidden | Declined | CutOff | Ran

  // A tool call as parsed from the response; no arguments means they were malformed.
  datatype Parsed = Parsed(id: string, name: string, arguments: Option<string>)

  type Key = (string, Option<string>)

  datatype AskEntry = AskEntry(index: nat, name: string, resource: Option<string>)
  {
    function Key(): Key {
      (name, resource)
    }
  }

  // A permission written to the user's store.
  datatype Grant = Grant(name: string, resource: Option<string>, level: Level)

  datatype World = World(
    known: string -> bool,
    validated: (string, string) -> Option<string>,
    level: (string, string) -> Level,
    resource: (string, string) -> Option<string>,
    blanket: string -> bool,
    channel: bool,
    answer: nat -> A.Decision,
    reply: (Fate, Parsed) -> string,
    fails: Parsed -> bool)

  // What the agent carries from one round of a turn to the next: the decisions it
  // may reuse, the prompts the user saw, and the permissions it wrote.
  datatype Asking = Asking(cache: map<Key, A.Decision>, prompts: seq<Key>, grants: seq<Grant>, interrupted: bool)

  predicate Allows(d: A.Decision) {
    d == A.Approved || d == A.AlwaysAllow || d == A.AlwaysAllowAll
  }

  // ---- Phase 1 ----------------------------------------------------------------------

  // Why a call is not even considered for execution, if it is not.
  function Screen(w: World, p: Parsed): Option<Fate> {
    if p.arguments.None? then Some(Malformed)
    else if !w.known(p.name) then Some(Unknown)
    else if w.validated(p.name, p.arguments.value).None? then Some(Invalid)
    else None
  }

  function Screened(w: World, calls: seq<Parsed>): seq<(nat, Fate)> {
    if calls == [] then []
    else
      var n, f := |calls| - 1, Screen(w, calls[|calls| - 1]);
      Screened(w, calls[..n]) + (if f.Some? then [(n, f.value)] else [])
  }

  function Kept(w: World, calls: seq<Parsed>): (kept: seq<nat>)
    ensures forall k :: 0 <= k < |kept| ==> kept[k] < |calls| && Screen(w, calls[kept[k]]).None?
  {
    if calls == [] then []
    else
      var n := |calls| - 1;
      Kept(w, calls[..n]) + (if Screen(w, calls[n]).None? then [n] else [])
  }

  // ---- Phase 2 ----------------------------------------------------------------------

  function ValidatedArgs(w: World, p: Parsed): string {
    if p.arguments.None? then "" else
      var v := w.validated(p.name, p.arguments.value);
      if v.Some? then v.value else ""
  }

  function LevelOf(w: World, p: Parsed): Level {
    w.level(p.name, ValidatedArgs(w, p))
  }

  ghost predicate Positions(calls: seq<Parsed>, kept: seq<nat>) {
    forall k :: 0 <= k < |kept| ==> kept[k] < |calls|
  }

  function AtLevel(w: World, calls: seq<Parsed>, kept: seq<nat>, level: Level): (r: seq<nat>)
    requires Positions(calls, kept)
    ensures forall k :: 0 <= k < |r| ==> r[k] in kept && r[k] < |calls| && LevelOf(w, calls[r[k]]) == level
  {
    if kept == [] then []
    else
      var i := kept[|kept| - 1];
      AtLevel(w, calls, kept[..|kept| - 1], level) + (if LevelOf(w, calls[i]) == level then [i] else [])
  }

  function EntryOf(w: World, p: Parsed, i: nat): AskEntry {
    AskEntry(i, p.name, w.resource(p.name, ValidatedArgs(w, p)))
  }

  function Entries(w: World, calls: seq<Parsed>, positions: seq<nat>): (r: seq<AskEntry>)
    requires Positions(calls, positions)
    ensures |r| == |positions| && forall k :: 0 <= k < |r| ==> r[k] == EntryOf(w, calls[positions[k]], positions[k])
  {
    seq(|positions|, k requires 0 <= k < |positions| => EntryOf(w, calls[positions[k]], positions[k]))
  }

  // ---- Asking -----------------------------------------------------------------------

  function Decide(w: World, st: Asking, a: AskEntry): A.Decision {
    if a.Key() in st.cache then st.cache[a.Key()]
    else if w.channel then w.answer(|st.prompts|)
    else A.Denied
  }

  predicate Prompts(w: World, st: Asking, a: AskEntry) {
    a.Key() !in st.cache && w.channel
  }

  // A blanket grant is honoured only for tools that offer it.
  function Granted(w: World, a: AskEntry, d: A.Decision): seq<Grant> {
    match d
    case AlwaysAllow => [Grant(a.name, a.resource, Always)]
    case AlwaysAllowAll => [Grant(a.name, if w.blanket(a.name) then None else a.resource, Always)]
    case AlwaysDeny => [Grant(a.name, a.resource, Never)]
    case _ => []
  }

  function AfterAsk(w: World, st: Asking, a: AskEntry): Asking {
    if st.interrupted then st
    else
      var d := Decide(w, st, a);
      Asking(
        if Prompts(w, st, a) && d != A.Interrupted then st.cache[a.Key() := d] else st.cache,
        if Prompts(w, st, a) then st.prompts + [a.Key()] else st.prompts,
        st.grants + Granted(w, a, d),
        d == A.Interrupted)
  }

  function FateOf(w: World, st: Asking, a: AskEntry): Fate {
    if st.interrupted || Decide(w, st, a) == A.Interrupted then CutOff
    else if Allows(Decide(w, st, a)) then Ran
    else Declined
  }

  function AfterAsks(w: World, st: Asking, asks: seq<AskEntry>): Asking {
    if asks == [] then st else AfterAsk(w, AfterAsks(w, st, asks[..|asks| - 1]), asks[|asks| - 1])
  }

  function Refused(w: World, st: Asking, asks: seq<AskEntry>): seq<(nat, Fate)> {
    if asks == [] then []
    else
      var before, a := asks[..|asks| - 1], asks[|asks| - 1];
      var f := FateOf(w, AfterAsks(w, st, before), a);
      Refused(w, st, before) + (if f == Ran then [] else [(a.index, f)])
  }

  function Approved(w: World, st: Asking, asks: seq<AskEntry>): seq<nat> {
    if asks == [] then []
    else
      var before, a := asks[..|asks| - 1], asks[|asks| - 1];
      Approved(w, st, before) + (if FateOf(w, AfterAsks(w, st, before), a) == Ran then [a.index] else [])
  }

  // ---- The round --------------------------------------------------------------------

  function All(positions: seq<nat>, f: Fate): seq<(nat, Fate)> {
    if positions == [] then [] else All(positions[..|positions| - 1], f) + [(positions[|positions| - 1], f)]
  }

  function AskList(w: World, calls: seq<Parsed>): seq<AskEntry> {
    Entries(w, calls, AtLevel(w, calls, Kept(w, calls), Ask))
  }

  function Executed(w: World, calls: seq<Parsed>, st: Asking): seq<nat> {
    AtLevel(w, calls, Kept(w, calls), Always) + Approved(w, st, AskList(w, calls))
  }

  // The calls in the order of their results, each with what became of it.
  function Fates(w: World, calls: seq<Parsed>, st: Asking): seq<(nat, Fate)> {
    Screened(w, calls) + All(AtLevel(w, calls, Kept(w, calls), Never), Forbidden) +
    Refused(w, st, AskList(w, calls)) + All(Executed(w, calls, st), Ran)
  }

  function Answer(w: World, p: Parsed, f: Fate): Message {
    ToolResult(p.id, w.reply(f, p), f != Ran || w.fails(p))
  }

  function Rendered(w: World, calls: seq<Parsed>, fates: seq<(nat, Fate)>): (ms: seq<Message>)
    ensures |ms| == |fates|
    ensures forall k :: 0 <= k < |fates| && fates[k].0 < |calls| ==> ms[k] == Answer(w, calls[fates[k].0], fates[k].1)
  {
    if fates == [] then []
    else
      var x := fates[|fates| - 1];
      Rendered(w, calls, fates[..|fates| - 1]) +
      [if x.0 < |calls| then Answer(w, calls[x.0], x.1) else System("")]
  }

  lemma {:induction false} RenderedSnoc(w: World, calls: seq<Parsed>, fates: seq<(nat, Fate)>, x: (nat, Fate))
    requires x.0 < |calls|
    ensures Rendered(w, calls, fates + [x]) == Rendered(w, calls, fates) + [Answer(w, calls[x.0], x.1)]
  {
    assert (fates + [x])[..|fates|] == fates;
  }

  class Agent {
    var cache: map<Key, A.Decision>
    var prompts: seq<Key>
    var grants: seq<Grant>

    ghost function View(): Asking
      reads this
    {
      Asking(cache, prompts, grants, false)
    }

    constructor ()
      ensures View() == Asking(map[], [], [], false)
    {
      cache, prompts, grants := map[], [], [];
    }

    // The decision for one call that needs approval, and what is remembered of it.
    method Approve(w: World, a: AskEntry) returns (decision: A.Decision)
      modifies this
      ensures decision == Decide(w, old(View()), a)
      ensures View() == AfterAsk(w, old(View()), a).(interrupted := false)
    {
      if a.Key() in cache {
        decision := cache[a.Key()];
      } else if w.channel {
        decision := w.answer(|prompts|);
        prompts := prompts + [a.Key()];
        if decision != A.Interrupted {
          cache := cache[a.Key() := decision];
        }
      } else {
        decision := A.Denied;
      }
      grants := grants + Granted(w, a, decision);
    }

    method Phase1(w: World, calls: seq<Parsed>) returns (results: seq<Message>, kept: seq<nat>)
      ensures results == Rendered(w, calls, Screened(w, calls)) && kept == Kept(w, calls)
    {
      results, kept := [], [];
      for i := 0 to |calls|
        invariant results == Rendered(w, calls, Screened(w, calls[..i])) && kept == Kept(w, calls[..i])
      {
        ScreenStep(w, calls, i);
        var f := Screen(w, calls[i]);
        if f.Some? {
          results := results + [Answer(w, calls[i], f.value)];
          continue;
        }
        kept := kept + [i];
      }
      assert calls[..|calls|] == calls;
    }

    method Partition(w: World, calls: seq<Parsed>, kept: seq<nat>)
      returns (autos: seq<nat>, asks: seq<nat>, denies: seq<nat>)
      requires Positions(calls, kept)
      ensures autos == AtLevel(w, calls, kept, Always)
      ensures asks == AtLevel(w, calls, kept, Ask)
      ensures denies == AtLevel(w, calls, kept, Never)
    {
      autos, asks, denies := [], [], [];
      for k := 0 to |kept|
        invariant autos == AtLevel(w, calls, kept[..k], Always)
        invariant asks == AtLevel(w, calls, kept[..k], Ask)
        invariant denies == AtLevel(w, calls, kept[..k], Never)
      {
        assert kept[..k + 1][..k] == kept[..k];
        match LevelOf(w, calls[kept[k]])
        case Always => autos := autos + [kept[k]];
        case Never => denies := denies + [kept[k]];
        case Ask => asks := asks + [kept[k]];
      }
      assert kept[..|kept|] == kept;
    }

    // One result of the same fate for each of the given calls, after those so far.
    method Append(w: World, calls: seq<Parsed>, so: seq<Message>, positions: seq<nat>, f: Fate)
      returns (results: seq<Message>)
      requires Positions(calls, positions)
      ensures results == so + Rendered(w, calls, All(positions, f))
    {
      results := so;
      for k := 0 to |positions|
        invariant results == so + Rendered(w, calls, All(positions[..k], f))
      {
        assert positions[..k + 1][..k] == positions[..k];
        var done := All(positions[..k], f);
        RenderedSnoc(w, calls, done, (positions[k], f));
        var m := Answer(w, calls[positions[k]], f);
        Assoc(so, Rendered(w, calls, done), [m]);
        results := results + [m];
      }
      assert positions[..|positions|] == positions;
    }

    // Asks for one entry; an interruption ends the asking and cuts off the rest.
    method AskOne(w: World, calls: seq<Parsed>, asks: seq<AskEntry>, k: nat, before: seq<Message>,
            approvedBefore: seq<nat>, ghost st: Asking)
      returns (errors: seq<Message>, approved: seq<nat>, over: bool)
      requires k < |asks| && forall j :: 0 <= j < |asks| ==> asks[j].index < |calls|
      requires AskedSoFar(w, calls, st, asks, k, before, approvedBefore, View())
      modifies this
      ensures !over ==> AskedSoFar(w, calls, st, asks, k + 1, errors, approved, View())
      ensures over ==> AllAsked(w, calls, st, asks, errors, approved, View())
    {
      ghost var now := View();
      errors, approved, over := before, approvedBefore, false;
      var decision := Approve(w, asks[k]);
      if decision == A.Interrupted {
        errors := CutOffFrom(w, calls, asks, k, errors, st);
        over := true;
        CutOffIsAll(w, calls, st, asks, k, errors);
        return;
      }
      AskedStep(w, calls, st, asks, k, before, approvedBefore, now);
      if Allows(decision) {
        approved := approved + [asks[k].index];
      } else {
        errors := errors + [Answer(w, calls[asks[k].index], Declined)];
      }
    }

    // Asks for one entry after the other, up to an interruption.
    method AskAll(w: World, calls: seq<Parsed>, asks: seq<AskEntry>) returns (errors: seq<Message>, approved: seq<nat>)
      requires forall k :: 0 <= k < |asks| ==> asks[k].index < |calls|
      modifies this
      ensures AllAsked(w, calls, old(View()), asks, errors, approved, View())
    {
      errors, approved := [], [];
      ghost var st := View();
      NothingAsked(w, calls, st, asks);
      for k := 0 to |asks|
        invariant AskedSoFar(w, calls, st, asks, k, errors, approved, View())
      {
        var over;
        errors, approved, over := AskOne(w, calls, asks, k, errors, approved, st);
        if over {
          return;
        }
      }
      AskedIsAll(w, calls, st, asks, errors, approved, View());
    }

    static method CutOffFrom(w: World, calls: seq<Parsed>, asks: seq<AskEntry>, k: nat, so: seq<Message>,
            ghost st: Asking)
      returns (errors: seq<Message>)
      requires k < |asks| && forall j :: 0 <= j < |asks| ==> asks[j].index < |calls|
      requires RefusedSoFar(w, calls, st, asks, k, so)
      requires FateOf(w, AfterAsks(w, st, asks[..k]), asks[k]) == CutOff
      ensures RefusedSoFar(w, calls, st, asks, |asks|, errors)
    {
      errors := so;
      for j := k to |asks|
        invariant RefusedSoFar(w, calls, st, asks, j, errors)
      {
        StillCutOff(w, st, asks, k, j);
        RefusedStep(w, calls, st, asks, j, errors);
        errors := errors + [Answer(w, calls[asks[j].index], CutOff)];
      }
    }

    method ExecuteRound(w: World, calls: seq<Parsed>) returns (results: seq<Message>, executed: seq<nat>)
      modifies this
      ensures results == Rendered(w, calls, Fates(w, calls, old(View())))
      ensures executed == Executed(w, calls, old(View()))
      ensures View() == AfterAsks(w, old(View()), AskList(w, calls)).(interrupted := false)
    {
      var kept, errors, approved;
      ghost var st := View();
      results, kept := Phase1(w, calls);
      var autos, asks, denies := Partition(w, calls, kept);
      results := Append(w, calls, results, denies, Forbidden);
      errors, approved := AskAll(w, calls, Entries(w, calls, asks));
      results := results + errors;
      executed := autos + approved;
      ApprovedPositions(w, st, AskList(w, calls), |calls|);
      results := Append(w, calls, results, executed, Ran);
      FatesRendered(w, calls, st);
    }
  }

  lemma ScreenStep(w: World, calls: seq<Parsed>, i: nat)
    requires i < |calls|
    ensures var f := Screen(w, calls[i]); var done := Rendered(w, calls, Screened(w, calls[..i]));
            Rendered(w, calls, Screened(w, calls[..i + 1])) == if f.Some? then done + [Answer(w, calls[i], f.value)] else done
    ensures Kept(w, calls[..i + 1]) == Kept(w, calls[..i]) + (if Screen(w, calls[i]).None? then [i] else [])
  {
    assert calls[..i + 1][..i] == calls[..i];
    var done, f := Screened(w, calls[..i]), Screen(w, calls[i]);
    if f.Some? {
      RenderedSnoc(w, calls, done, (i, f.value));
    } else {
      assert done + [] == done;
    }
  }

  // The error results for the first k entries.
  ghost predicate RefusedSoFar(w: World, calls: seq<Parsed>, st: Asking, asks: seq<AskEntry>, k: nat,
          errors: seq<Message>) {
    k <= |asks| && errors == Rendered(w, calls, Refused(w, st, asks[..k]))
  }

  // What one more entry adds.
  lemma RefusedStep(w: World, calls: seq<Parsed>, st: Asking, asks: seq<AskEntry>, j: nat, errors: seq<Message>)
    requires j < |asks| && asks[j].index < |calls| && RefusedSoFar(w, calls, st, asks, j, errors)
    ensures var f := FateOf(w, AfterAsks(w, st, asks[..j]), asks[j]);
            RefusedSoFar(w, calls, st, asks, j + 1, if f == Ran then errors else errors + [Answer(w, calls[asks[j].index], f)])
  {
    assert asks[..j + 1][..j] == asks[..j];
    var done, f := Refused(w, st, asks[..j]), FateOf(w, AfterAsks(w, st, asks[..j]), asks[j]);
    if f == Ran {
      assert done + [] == done;
    } else {
      RenderedSnoc(w, calls, done, (asks[j].index, f));
    }
  }

  ghost predicate AskedSoFar(w: World, calls: seq<Parsed>, st: Asking, asks: seq<AskEntry>, k: nat,
                             errors: seq<Message>, approved: seq<nat>, now: Asking)
  {
    RefusedSoFar(w, calls, st, asks, k, errors) && approved == Approved(w, st, asks[..k]) && now == AfterAsks(w, st, asks[..k])
  }

  lemma AskedStep(w: World, calls: seq<Parsed>, st: Asking, asks: seq<AskEntry>, j: nat,
                  errors: seq<Message>, approved: seq<nat>, now: Asking)
    requires j < |asks| && asks[j].index < |calls| && AskedSoFar(w, calls, st, asks, j, errors, approved, now)
    ensures var f := FateOf(w, now, asks[j]);
            AskedSoFar(w, calls, st, asks, j + 1,
                       if f == Ran then errors else errors + [Answer(w, calls[asks[j].index], f)],
                       if f == Ran then approved + [asks[j].index] else approved, AfterAsk(w, now, asks[j]))
  {
    RefusedStep(w, calls, st, asks, j, errors);
    AskStateStep(w, st, asks, j);
    assert approved + [] == approved;
  }

  ghost predicate AllAsked(w: World, calls: seq<Parsed>, st: Asking, asks: seq<AskEntry>,
                           errors: seq<Message>, approved: seq<nat>, now: Asking)
  {
    && errors == Rendered(w, calls, Refused(w, st, asks)) && approved == Approved(w, st, asks)
    && now == AfterAsks(w, st, asks).(interrupted := false)
  }

  lemma NothingAsked(w: World, calls: seq<Parsed>, st: Asking, asks: seq<AskEntry>)
    ensures AskedSoFar(w, calls, st, asks, 0, [], [], st)
  {
    assert asks[..0] == [];
  }

  lemma AskedIsAll(w: World, calls: seq<Parsed>, st: Asking, asks: seq<AskEntry>, errors: seq<Message>,
          approved: seq<nat>, now: Asking)
    requires AskedSoFar(w, calls, st, asks, |asks|, errors, approved, now) && !now.interrupted
    ensures AllAsked(w, calls, st, asks, errors, approved, now)
  {
    assert asks[..|asks|] == asks;
  }

  lemma CutOffIsAll(w: World, calls: seq<Parsed>, st: Asking, asks: seq<AskEntry>, k: nat, errors: seq<Message>)
    requires k < |asks| && RefusedSoFar(w, calls, st, asks, |asks|, errors)
    requires Decide(w, AfterAsks(w, st, asks[..k]), asks[k]) == A.Interrupted
    ensures AllAsked(w, calls, st, asks, errors, Approved(w, st, asks[..k]),
                     AfterAsk(w, AfterAsks(w, st, asks[..k]), asks[k]).(interrupted := false))
  {
    CutOffApproves(w, st, asks, k, |asks|);
    assert asks[..|asks|] == asks;
  }

  // From an entry that is cut off on, every entry is.
  lemma StillCutOff(w: World, st: Asking, asks: seq<AskEntry>, k: nat, j: nat)
    requires k <= j < |asks| && FateOf(w, AfterAsks(w, st, asks[..k]), asks[k]) == CutOff
    ensures FateOf(w, AfterAsks(w, st, asks[..j]), asks[j]) == CutOff
  {
    if k < j {
      AskStateStep(w, st, asks, k);
      StaysCutOff(w, st, asks, k + 1, j);
    }
  }

  lemma AskStateStep(w: World, st: Asking, asks: seq<AskEntry>, j: nat)
    requires j < |asks|
    ensures AfterAsks(w, st, asks[..j + 1]) == AfterAsk(w, AfterAsks(w, st, asks[..j]), asks[j])
    ensures Approved(w, st, asks[..j + 1]) ==
      Approved(w, st, asks[..j]) + (if FateOf(w, AfterAsks(w, st, asks[..j]), asks[j]) == Ran then [asks[j].index] else [])
  {
    assert asks[..j + 1][..j] == asks[..j];
  }

  lemma {:induction false} StaysCutOff(w: World, st: Asking, asks: seq<AskEntry>, k: nat, n: nat)
    requires k <= n <= |asks| && AfterAsks(w, st, asks[..k]).interrupted
    ensures AfterAsks(w, st, asks[..n]) == AfterAsks(w, st, asks[..k])
    ensures Approved(w, st, asks[..n]) == Approved(w, st, asks[..k])
    decreases n
  {
    if k < n {
      StaysCutOff(w, st, asks, k, n - 1);
      AskStateStep(w, st, asks, n - 1);
    }
  }

  // After an interruption nothing is approved any more, and the state stays.
  lemma CutOffApproves(w: World, st: Asking, asks: seq<AskEntry>, k: nat, n: nat)
    requires k < n <= |asks| && Decide(w, AfterAsks(w, st, asks[..k]), asks[k]) == A.Interrupted
    ensures Approved(w, st, asks[..n]) == Approved(w, st, asks[..k])
    ensures AfterAsks(w, st, asks[..n]) == AfterAsk(w, AfterAsks(w, st, asks[..k]), asks[k])
    ensures AfterAsks(w, st, asks[..n]).interrupted
  {
    AskStateStep(w, st, asks, k);
    StaysCutOff(w, st, asks, k + 1, n);
  }

  lemma {:induction false} ApprovedPositions(w: World, st: Asking, asks: seq<AskEntry>, n: nat)
    requires forall k :: 0 <= k < |asks| ==> asks[k].index < n
    ensures forall k :: 0 <= k < |Approved(w, st, asks)| ==> Approved(w, st, asks)[k] < n
  {
    if asks != [] {
      ApprovedPositions(w, st, asks[..|asks| - 1], n);
    }
  }

  lemma RenderedLast(w: World, calls: seq<Parsed>, fates: seq<(nat, Fate)>, x: (nat, Fate))
    ensures Rendered(w, calls, fates + [x]) ==
      Rendered(w, calls, fates) + [if x.0 < |calls| then Answer(w, calls[x.0], x.1) else System("")]
  {
    assert (fates + [x])[..|fates|] == fates;
  }

  lemma RenderedStep(w: World, calls: seq<Parsed>, a: seq<(nat, Fate)>, init: seq<(nat, Fate)>, x: (nat, Fate))
    requires Rendered(w, calls, a + init) == Rendered(w, calls, a) + Rendered(w, calls, init)
    ensures Rendered(w, calls, a + (init + [x])) == Rendered(w, calls, a) + Rendered(w, calls, init + [x])
  {
    RenderedLast(w, calls, a + init, x);
    RenderedLast(w, calls, init, x);
    Assoc(a, init, [x]);
    Assoc(Rendered(w, calls, a), Rendered(w, calls, init), [if x.0 < |calls| then Answer(w, calls[x.0], x.1) else System("")]);
  }

  lemma {:induction false} RenderedConcat(w: World, calls: seq<Parsed>, a: seq<(nat, Fate)>, b: seq<(nat, Fate)>)
    ensures Rendered(w, calls, a + b) == Rendered(w, calls, a) + Rendered(w, calls, b)
  {
    if b == [] {
      assert a + b == a;
    } else {
      RenderedConcat(w, calls, a, b[..|b| - 1]);
      RenderedStep(w, calls, a, b[..|b| - 1], b[|b| - 1]);
      LastRejoin(b);
    }
  }

  lemma FatesRendered(w: World, calls: seq<Parsed>, st: Asking)
    ensures Rendered(w, calls, Fates(w, calls, st)) ==
      Rendered(w, calls, Screened(w, calls)) + Rendered(w, calls, All(AtLevel(w, calls, Kept(w, calls), Never), Forbidden)) +
      Rendered(w, calls, Refused(w, st, AskList(w, calls))) + Rendered(w, calls, All(Executed(w, calls, st), Ran))
  {
    var a, b := Screened(w, calls), All(AtLevel(w, calls, Kept(w, calls), Never), Forbidden);
    var c, d := Refused(w, st, AskList(w, calls)), All(Executed(w, calls, st), Ran);
    RenderedConcat(w, calls, a, b);
    RenderedConcat(w, calls, a + b, c);
    RenderedConcat(w, calls, a + b + c, d);
  }

  // ---- Exactly one result for every call -------------------------------------------------

  function Upto(n: nat): (s: seq<nat>)
    ensures |s| == n && forall i :: 0 <= i < n ==> s[i] == i
  {
    if n == 0 then [] else Upto(n - 1) + [n - 1]
  }

  function Pos(fates: seq<(nat, Fate)>): seq<nat> {
    if fates == [] then [] else Pos(fates[..|fates| - 1]) + [fates[|fates| - 1].0]
  }

  function Indices(asks: seq<AskEntry>): seq<nat> {
    if asks == [] then [] else Indices(asks[..|asks| - 1]) + [asks[|asks| - 1].index]
  }

  lemma PosSnoc(fates: seq<(nat, Fate)>, x: (nat, Fate))
    ensures Pos(fates + [x]) == Pos(fates) + [x.0]
  {
    assert (fates + [x])[..|fates|] == fates;
  }

  lemma {:induction false} PosConcat(a: seq<(nat, Fate)>, b: seq<(nat, Fate)>)
    ensures Pos(a + b) == Pos(a) + Pos(b)
  {
    if b == [] {
      assert a + b == a && Pos(a) + [] == Pos(a);
    } else {
      var n := |b| - 1;
      PosConcat(a, b[..n]);
      assert (a + b)[..|a + b| - 1] == a + b[..n];
      Assoc(Pos(a), Pos(b[..n]), [b[n].0]);
    }
  }

  lemma {:induction false} PosAt(fates: seq<(nat, Fate)>)
    ensures |Pos(fates)| == |fates| && forall k :: 0 <= k < |fates| ==> Pos(fates)[k] == fates[k].0
  {
    if fates != [] {
      PosAt(fates[..|fates| - 1]);
    }
  }

  lemma {:induction false} EntryIndices(asks: seq<AskEntry>, positions: seq<nat>)
    requires |asks| == |positions| && forall k :: 0 <= k < |asks| ==> asks[k].index == positions[k]
    ensures Indices(asks) == positions
  {
    if asks != [] {
      EntryIndices(asks[..|asks| - 1], positions[..|asks| - 1]);
    }
  }

  lemma {:induction false} AllPos(positions: seq<nat>, f: Fate)
    ensures Pos(All(positions, f)) == positions
  {
    if positions != [] {
      AllPos(positions[..|positions| - 1], f);
      PosSnoc(All(positions[..|positions| - 1], f), (positions[|positions| - 1], f));
    }
  }

  function Count(s: seq<nat>, x: nat): nat {
    if s == [] then 0 else Count(s[..|s| - 1], x) + (if s[|s| - 1] == x then 1 else 0)
  }

  lemma CountSnoc(s: seq<nat>, y: nat, x: nat)
    ensures Count(s + [y], x) == Count(s, x) + (if x == y then 1 else 0)
  {
    assert (s + [y])[..|s|] == s;
  }

  lemma {:induction false} CountConcat(a: seq<nat>, b: seq<nat>, x: nat)
    ensures Count(a + b, x) == Count(a, x) + Count(b, x)
  {
    if b == [] {
      assert a + b == a;
    } else {
      CountConcat(a, b[..|b| - 1], x);
      assert (a + b)[..|a + b| - 1] == a + b[..|b| - 1];
    }
  }

  lemma {:induction false} CountIs(s: seq<nat>, x: nat)
    ensures multiset(s)[x] == Count(s, x)
  {
    if s != [] {
      CountIs(s[..|s| - 1], x);
      assert s == s[..|s| - 1] + [s[|s| - 1]];
    }
  }

  lemma ScreenedLast(w: World, calls: seq<Parsed>, x: nat)
    requires calls != []
    ensures var n := |calls| - 1;
            Count(Pos(Screened(w, calls)), x) + Count(Kept(w, calls), x) ==
            Count(Pos(Screened(w, calls[..n])), x) + Count(Kept(w, calls[..n]), x) + (if x == n then 1 else 0)
  {
    var n := |calls| - 1;
    var done, kept, f := Screened(w, calls[..n]), Kept(w, calls[..n]), Screen(w, calls[n]);
    if f.Some? {
      PosSnoc(done, (n, f.value));
      CountSnoc(Pos(done), n, x);
      assert kept + [] == kept;
    } else {
      CountSnoc(kept, n, x);
      assert done + [] == done;
    }
  }

  lemma {:induction false} ScreenedPartition(w: World, calls: seq<Parsed>, x: nat)
    ensures Count(Pos(Screened(w, calls)), x) + Count(Kept(w, calls), x) == Count(Upto(|calls|), x)
  {
    if calls != [] {
      var n := |calls| - 1;
      ScreenedPartition(w, calls[..n], x);
      ScreenedLast(w, calls, x);
      CountSnoc(Upto(n), n, x);
    }
  }

  lemma AtLevelLast(w: World, calls: seq<Parsed>, kept: seq<nat>, level: Level, x: nat)
    requires Positions(calls, kept) && kept != []
    ensures var n := |kept| - 1;
            Count(AtLevel(w, calls, kept, level), x) ==
            Count(AtLevel(w, calls, kept[..n], level), x) + (if kept[n] == x && LevelOf(w, calls[x]) == level then 1 else 0)
  {
    var n := |kept| - 1;
    var before := AtLevel(w, calls, kept[..n], level);
    CountSnoc(before, kept[n], x);
    assert before + [] == before;
  }

  lemma {:induction false} AtLevelCount(w: World, calls: seq<Parsed>, kept: seq<nat>, level: Level, x: nat)
    requires Positions(calls, kept)
    ensures Count(AtLevel(w, calls, kept, level), x) ==
      if x < |calls| && LevelOf(w, calls[x]) == level then Count(kept, x) else 0
  {
    if kept != [] {
      AtLevelCount(w, calls, kept[..|kept| - 1], level, x);
      AtLevelLast(w, calls, kept, level, x);
    }
  }

  lemma {:induction false} AsksPartition(w: World, st: Asking, asks: seq<AskEntry>, x: nat)
    ensures Count(Pos(Refused(w, st, asks)), x) + Count(Approved(w, st, asks), x) == Count(Indices(asks), x)
  {
    if asks != [] {
      var before, a := asks[..|asks| - 1], asks[|asks| - 1];
      var no, yes, f := Refused(w, st, before), Approved(w, st, before), FateOf(w, AfterAsks(w, st, before), a);
      AsksPartition(w, st, before, x);
      CountSnoc(Indices(before), a.index, x);
      if f == Ran {
        CountSnoc(yes, a.index, x);
        assert no + [] == no;
      } else {
        PosSnoc(no, (a.index, f));
        CountSnoc(Pos(no), a.index, x);
        assert yes + [] == yes;
      }
    }
  }

  lemma {:induction false} CountKept(w: World, calls: seq<Parsed>, x: nat)
    ensures x >= |calls| ==> Count(Kept(w, calls), x) == 0
  {
    if calls != [] {
      var before := Kept(w, calls[..|calls| - 1]);
      CountKept(w, calls[..|calls| - 1], x);
      CountSnoc(before, |calls| - 1, x);
      assert before + [] == before;
    }
  }

  lemma FatesPos(w: World, calls: seq<Parsed>, st: Asking)
    ensures Pos(Fates(w, calls, st)) ==
      Pos(Screened(w, calls)) + AtLevel(w, calls, Kept(w, calls), Never) +
      Pos(Refused(w, st, AskList(w, calls))) + Executed(w, calls, st)
  {
    var a, never, c := Screened(w, calls), AtLevel(w, calls, Kept(w, calls), Never), Refused(w, st, AskList(w, calls));
    var executed := Executed(w, calls, st);
    PosConcat(a, All(never, Forbidden));
    PosConcat(a + All(never, Forbidden), c);
    PosConcat(a + All(never, Forbidden) + c, All(executed, Ran));
    AllPos(never, Forbidden);
    AllPos(executed, Ran);
  }

  lemma CountFour(a: seq<nat>, b: seq<nat>, c: seq<nat>, d: seq<nat>, e: seq<nat>, x: nat)
    ensures Count(a + b + c + (d + e), x) == Count(a, x) + Count(b, x) + Count(c, x) + Count(d, x) + Count(e, x)
  {
    CountConcat(a, b, x);
    CountConcat(a + b, c, x);
    CountConcat(a + b + c, d + e, x);
    CountConcat(d, e, x);
  }

  lemma CallOnce(w: World, calls: seq<Parsed>, st: Asking, x: nat)
    ensures Count(Pos(Fates(w, calls, st)), x) == Count(Upto(|calls|), x)
  {
    var kept, asks := Kept(w, calls), AskList(w, calls);
    FatesPos(w, calls, st);
    CountFour(Pos(Screened(w, calls)), AtLevel(w, calls, kept, Never), Pos(Refused(w, st, asks)),
      AtLevel(w, calls, kept, Always), Approved(w, st, asks), x);
    ScreenedPartition(w, calls, x);
    AtLevelCount(w, calls, kept, Always, x);
    AtLevelCount(w, calls, kept, Ask, x);
    AtLevelCount(w, calls, kept, Never, x);
    CountKept(w, calls, x);
    AsksPartition(w, st, asks, x);
    EntryIndices(asks, AtLevel(w, calls, kept, Ask));
  }

  lemma SameCounts(a: seq<nat>, b: seq<nat>)
    requires forall x: nat :: Count(a, x) == Count(b, x)
    ensures multiset(a) == multiset(b)
  {
    var m, n: multiset<nat> := multiset(a), multiset(b);
    forall x: nat ensures m[x] == n[x] {
      CountIs(a, x);
      CountIs(b, x);
    }
  }

  // The malformed, unknown, invalid, forbidden, declined, cut-off and executed calls
  // are together every requested call, each once.
  lemma EveryCallOnce(w: World, calls: seq<Parsed>, st: Asking)
    ensures multiset(Pos(Fates(w, calls, st))) == multiset(Upto(|calls|))
  {
    var a, b := Pos(Fates(w, calls, st)), Upto(|calls|);
    forall x: nat ensures Count(a, x) == Count(b, x) {
      CallOnce(w, calls, st, x);
    }
    SameCounts(a, b);
  }

  // ---- Call ids -----------------------------------------------------------------------------

  const NO_ARGUMENTS := "{}"

  function Request(p: Parsed): ToolCall {
    ToolCall(p.id, p.name, if p.arguments.Some? then p.arguments.value else NO_ARGUMENTS)
  }

  function Requests(calls: seq<Parsed>): seq<ToolCall> {
    if calls == [] then [] else Requests(calls[..|calls| - 1]) + [Request(calls[|calls| - 1])]
  }

  // The model's own message repeats its calls, none changed and none left out.
  lemma {:induction false} RequestsAre(calls: seq<Parsed>)
    ensures |Requests(calls)| == |calls|
    ensures forall i :: 0 <= i < |calls| ==>
      Requests(calls)[i] == ToolCall(calls[i].id, calls[i].name, if calls[i].arguments.Some? then calls[i].arguments.value else "{}")
  {
    if calls != [] {
      RequestsAre(calls[..|calls| - 1]);
    }
  }

  function IdsAt(calls: seq<Parsed>, positions: seq<nat>): seq<string> {
    if positions == [] then []
    else
      var i := positions[|positions| - 1];
      IdsAt(calls, positions[..|positions| - 1]) + (if i < |calls| then [calls[i].id] else [])
  }

  lemma {:induction false} IdsAtConcat(calls: seq<Parsed>, a: seq<nat>, b: seq<nat>)
    ensures IdsAt(calls, a + b) == IdsAt(calls, a) + IdsAt(calls, b)
  {
    if b == [] {
      assert a + b == a;
    } else {
      var n := |b| - 1;
      IdsAtConcat(calls, a, b[..n]);
      assert (a + b)[..|a + b| - 1] == a + b[..n];
      Assoc(IdsAt(calls, a), IdsAt(calls, b[..n]), if b[n] < |calls| then [calls[b[n]].id] else []);
    }
  }

  lemma RemoveBoth(a: seq<nat>, b: seq<nat>, c: seq<nat>, x: nat)
    requires multiset(a + [x]) == multiset(b + ([x] + c))
    ensures multiset(a) == multiset(b + c)
  {
    assert multiset(b + ([x] + c)) == multiset(b) + (multiset{x} + multiset(c));
    assert multiset(a) == multiset(a + [x]) - multiset{x};
  }

  // Reordering positions reorders the ids.
  lemma {:induction false} IdsPermuted(calls: seq<Parsed>, a: seq<nat>, b: seq<nat>)
    requires multiset(a) == multiset(b)
    ensures multiset(IdsAt(calls, a)) == multiset(IdsAt(calls, b))
    decreases |a|
  {
    if a == [] {
      assert b == [] by {
        assert |multiset(b)| == 0;
      }
    } else {
      var n, x := |a| - 1, a[|a| - 1];
      assert a == a[..n] + [x];
      assert x in multiset(b);
      var k :| 0 <= k < |b| && b[k] == x;
      var rest := b[..k] + b[k + 1..];
      assert b == b[..k] + ([x] + b[k + 1..]);
      RemoveBoth(a[..n], b[..k], b[k + 1..], x);
      IdsPermuted(calls, a[..n], rest);
      IdsAtConcat(calls, b[..k], b[k + 1..]);
      IdsAtConcat(calls, b[..k], [x] + b[k + 1..]);
      IdsAtConcat(calls, [x], b[k + 1..]);
      IdsAtConcat(calls, a[..n], [x]);
    }
  }

  lemma {:induction false} RequestIds(calls: seq<Parsed>, n: nat)
    requires n <= |calls|
    ensures CallIds(Requests(calls[..n])) == IdsAt(calls, Upto(n))
  {
    if n > 0 {
      RequestIds(calls, n - 1);
      assert calls[..n][..n - 1] == calls[..n - 1];
      IdsSnoc(Requests(calls[..n - 1]), Request(calls[n - 1]));
      assert Upto(n)[..n - 1] == Upto(n - 1);
    }
  }

  lemma IdsSnoc(requests: seq<ToolCall>, r: ToolCall)
    ensures CallIds(requests + [r]) == CallIds(requests) + [r.id]
  {
    assert (requests + [r])[..|requests|] == requests;
  }

  ghost predicate InRange(calls: seq<Parsed>, fates: seq<(nat, Fate)>) {
    forall k :: 0 <= k < |fates| ==> fates[k].0 < |calls|
  }

  lemma {:induction false} RenderedIds(w: World, calls: seq<Parsed>, fates: seq<(nat, Fate)>)
    requires InRange(calls, fates)
    ensures ResultIds(Rendered(w, calls, fates)) == IdsAt(calls, Pos(fates))
    ensures Leading(Rendered(w, calls, fates)) == |fates|
  {
    if fates != [] {
      var n, x := |fates| - 1, fates[|fates| - 1];
      var before := fates[..n];
      RenderedIds(w, calls, before);
      var ms, m := Rendered(w, calls, before), Answer(w, calls[x.0], x.1);
      assert Rendered(w, calls, fates) == ms + [m];
      assert (ms + [m])[..n] == ms;
      LeadingPrefix(ms, [m]);
      PosAt(before);
      assert Pos(fates)[..n] == Pos(before);
    }
  }

  lemma FatesInRange(w: World, calls: seq<Parsed>, st: Asking)
    ensures InRange(calls, Fates(w, calls, st))
  {
    var fates := Fates(w, calls, st);
    EveryCallOnce(w, calls, st);
    PosAt(fates);
    forall k | 0 <= k < |fates| ensures fates[k].0 < |calls| {
      assert Pos(fates)[k] in multiset(Pos(fates));
      assert fates[k].0 in Upto(|calls|);
    }
  }

  // The results of a round answer exactly the requested calls.
  lemma OneResultPerCall(w: World, calls: seq<Parsed>, st: Asking)
    ensures var results := Rendered(w, calls, Fates(w, calls, st));
            && multiset(ResultIds(results)) == multiset(CallIds(Requests(calls)))
            && Leading(results) == |results|
  {
    var fates := Fates(w, calls, st);
    EveryCallOnce(w, calls, st);
    FatesInRange(w, calls, st);
    RenderedIds(w, calls, fates);
    IdsPermuted(calls, Pos(fates), Upto(|calls|));
    RequestIds(calls, |calls|);
    assert calls[..|calls|] == calls;
  }

  // ---- Who runs -------------------------------------------------------------------------------

  ghost predicate Ascending(s: seq<nat>) {
    forall i, j :: 0 <= i < j < |s| ==> s[i] < s[j]
  }

  lemma {:induction false} KeptAscends(w: World, calls: seq<Parsed>)
    ensures Ascending(Kept(w, calls))
  {
    if calls != [] {
      KeptAscends(w, calls[..|calls| - 1]);
    }
  }

  lemma {:induction false} AtLevelAscends(w: World, calls: seq<Parsed>, kept: seq<nat>, level: Level)
    requires Positions(calls, kept) && Ascending(kept)
    ensures Ascending(AtLevel(w, calls, kept, level))
  {
    if kept != [] {
      var before, r := kept[..|kept| - 1], AtLevel(w, calls, kept[..|kept| - 1], level);
      AtLevelAscends(w, calls, before, level);
      forall k | 0 <= k < |r| ensures r[k] < kept[|kept| - 1] {
        assert r[k] in before;
      }
    }
  }

  lemma {:induction false} NotApproved(w: World, st: Asking, asks: seq<AskEntry>, i: nat)
    requires forall k :: 0 <= k < |asks| ==> asks[k].index != i
    ensures i !in Approved(w, st, asks)
  {
    if asks != [] {
      NotApproved(w, st, asks[..|asks| - 1], i);
    }
  }

  lemma AsksApart(w: World, calls: seq<Parsed>, k: nat, j: nat)
    requires k <= j < |AskList(w, calls)|
    ensures forall l :: 0 <= l < k ==> AskList(w, calls)[l].index != AskList(w, calls)[j].index
  {
    var asks, positions := AskList(w, calls), AtLevel(w, calls, Kept(w, calls), Ask);
    KeptAscends(w, calls);
    AtLevelAscends(w, calls, Kept(w, calls), Ask);
    forall l | 0 <= l < k ensures asks[l].index != asks[j].index {
      assert positions[l] < positions[j];
    }
  }

  lemma AskedIsNotAuto(w: World, calls: seq<Parsed>, j: nat)
    requires j < |AskList(w, calls)|
    ensures AskList(w, calls)[j].index !in AtLevel(w, calls, Kept(w, calls), Always)
  {
    var positions, i := AtLevel(w, calls, Kept(w, calls), Ask), AskList(w, calls)[j].index;
    assert positions[j] == i && LevelOf(w, calls[i]) == Ask;
    if i in AtLevel(w, calls, Kept(w, calls), Always) {
      AutosAllowed(w, calls, i);
    }
  }

  // From an interruption on nothing that was asked for runs.
  lemma NothingRunsAfterInterruption(w: World, calls: seq<Parsed>, st: Asking, k: nat, j: nat)
    requires var asks := AskList(w, calls);
             k <= j < |asks| && Decide(w, AfterAsks(w, st, asks[..k]), asks[k]) == A.Interrupted
    ensures AskList(w, calls)[j].index !in Executed(w, calls, st)
  {
    var asks := AskList(w, calls);
    CutOffApproves(w, st, asks, k, |asks|);
    assert asks[..|asks|] == asks;
    AsksApart(w, calls, k, j);
    NotApproved(w, st, asks[..k], asks[j].index);
    AskedIsNotAuto(w, calls, j);
  }

  // ---- Every approval of a turn -------------------------------------------------------------------

  // A remembered decision is the user's answer to a prompt of this turn, and it is
  // not an interruption.
  ghost predicate Remembered(answer: nat -> A.Decision, st: Asking, key: Key) {
    key in st.cache && st.cache[key] != A.Interrupted &&
    exists p :: 0 <= p < |st.prompts| && st.prompts[p] == key && st.cache[key] == answer(p)
  }

  ghost predicate CacheJustified(answer: nat -> A.Decision, st: Asking) {
    forall key :: key in st.cache ==> Remembered(answer, st, key)
  }

  // Every answer other than an interruption is remembered.
  ghost predicate AnswersKept(answer: nat -> A.Decision, st: Asking) {
    forall p :: 0 <= p < |st.prompts| && answer(p) != A.Interrupted ==> st.prompts[p] in st.cache
  }

  ghost predicate PromptsOnce(answer: nat -> A.Decision, st: Asking) {
    forall p, q :: 0 <= p < q < |st.prompts| && st.prompts[p] == st.prompts[q] ==> answer(p) == A.Interrupted
  }

  // A permission that was written is what the user answered to a prompt for it; one
  // for every resource of a tool takes a tool that offers it.
  ghost predicate GrantFollows(answer: nat -> A.Decision, blanket: string -> bool, st: Asking, g: Grant) {
    exists p :: 0 <= p < |st.prompts| && st.prompts[p].0 == g.name &&
      match answer(p) {
        case AlwaysAllow => g.level == Always && g.resource == st.prompts[p].1
        case AlwaysAllowAll => g.level == Always && g.resource == if blanket(g.name) then None else st.prompts[p].1
        case AlwaysDeny => g.level == Never && g.resource == st.prompts[p].1
        case _ => false
      }
  }

  ghost predicate GrantsFollow(answer: nat -> A.Decision, blanket: string -> bool, st: Asking) {
    forall g :: g in st.grants ==> GrantFollows(answer, blanket, st, g)
  }

  ghost predicate Honest(answer: nat -> A.Decision, st: Asking) {
    CacheJustified(answer, st) && AnswersKept(answer, st) && PromptsOnce(answer, st)
  }

  ghost predicate Extends(st: Asking, after: Asking) {
    st.prompts <= after.prompts
  }

  lemma CacheStays(w: World, st: Asking, a: AskEntry)
    requires CacheJustified(w.answer, st)
    ensures CacheJustified(w.answer, AfterAsk(w, st, a)) && Extends(st, AfterAsk(w, st, a))
  {
    var after := AfterAsk(w, st, a);
    forall key | key in after.cache ensures Remembered(w.answer, after, key) {
      if key in st.cache && after.cache[key] == st.cache[key] {
        var p :| 0 <= p < |st.prompts| && st.prompts[p] == key && st.cache[key] == w.answer(p);
        assert after.prompts[p] == key;
      } else {
        assert after.prompts[|st.prompts|] == key;
      }
    }
  }

  lemma AnswersStay(w: World, st: Asking, a: AskEntry)
    requires AnswersKept(w.answer, st) && PromptsOnce(w.answer, st)
    ensures AnswersKept(w.answer, AfterAsk(w, st, a)) && PromptsOnce(w.answer, AfterAsk(w, st, a))
  {
  }

  lemma GrantStays(answer: nat -> A.Decision, blanket: string -> bool, st: Asking, after: Asking, g: Grant)
    requires Extends(st, after) && GrantFollows(answer, blanket, st, g)
    ensures GrantFollows(answer, blanket, after, g)
  {
    assert forall p :: 0 <= p < |st.prompts| ==> after.prompts[p] == st.prompts[p];
  }

  lemma NewGrant(w: World, st: Asking, a: AskEntry, g: Grant)
    requires CacheJustified(w.answer, AfterAsk(w, st, a)) && !st.interrupted && g in Granted(w, a, Decide(w, st, a))
    ensures GrantFollows(w.answer, w.blanket, AfterAsk(w, st, a), g)
  {
    var after := AfterAsk(w, st, a);
    assert Decide(w, st, a) != A.Denied;
    assert Remembered(w.answer, after, a.Key());
  }

  lemma AskHonest(w: World, st: Asking, a: AskEntry)
    requires Honest(w.answer, st)
    ensures Honest(w.answer, AfterAsk(w, st, a)) && Extends(st, AfterAsk(w, st, a))
  {
    CacheStays(w, st, a);
    AnswersStay(w, st, a);
  }

  lemma AskGrants(w: World, st: Asking, a: AskEntry)
    requires Honest(w.answer, st) && GrantsFollow(w.answer, w.blanket, st)
    ensures GrantsFollow(w.answer, w.blanket, AfterAsk(w, st, a))
  {
    var after := AfterAsk(w, st, a);
    CacheStays(w, st, a);
    forall g | g in after.grants ensures GrantFollows(w.answer, w.blanket, after, g) {
      if g in st.grants {
        GrantStays(w.answer, w.blanket, st, after, g);
      } else {
        NewGrant(w, st, a, g);
      }
    }
  }

  lemma {:induction false} AsksGrants(w: World, st: Asking, asks: seq<AskEntry>)
    requires Honest(w.answer, st) && GrantsFollow(w.answer, w.blanket, st)
    ensures GrantsFollow(w.answer, w.blanket, AfterAsks(w, st, asks))
  {
    if asks != [] {
      AsksHonest(w, st, asks[..|asks| - 1]);
      AsksGrants(w, st, asks[..|asks| - 1]);
      AskGrants(w, AfterAsks(w, st, asks[..|asks| - 1]), asks[|asks| - 1]);
    }
  }

  lemma {:induction false} AsksHonest(w: World, st: Asking, asks: seq<AskEntry>)
    requires Honest(w.answer, st)
    ensures Honest(w.answer, AfterAsks(w, st, asks)) && Extends(st, AfterAsks(w, st, asks))
  {
    if asks != [] {
      AsksHonest(w, st, asks[..|asks| - 1]);
      AskHonest(w, AfterAsks(w, st, asks[..|asks| - 1]), asks[|asks| - 1]);
    }
  }

  // The rounds of a turn, each with its own tools and stored permissions but with
  // one user.
  ghost predicate OneUser(answer: nat -> A.Decision, rounds: seq<(World, seq<Parsed>)>) {
    forall r :: 0 <= r < |rounds| ==> rounds[r].0.answer == answer
  }

  function AfterRound(st: Asking, w: World, calls: seq<Parsed>): Asking {
    AfterAsks(w, st, AskList(w, calls)).(interrupted := false)
  }

  function AfterRounds(st: Asking, rounds: seq<(World, seq<Parsed>)>): Asking {
    if rounds == [] then st
    else
      AfterRound(AfterRounds(st, rounds[..|rounds| - 1]), rounds[|rounds| - 1].0, rounds[|rounds| - 1].1)
  }

  const Fresh := Asking(map[], [], [], false)

  lemma {:induction false} TurnHonest(answer: nat -> A.Decision, rounds: seq<(World, seq<Parsed>)>)
    requires OneUser(answer, rounds)
    ensures Honest(answer, AfterRounds(Fresh, rounds))
  {
    if rounds != [] {
      var n := |rounds| - 1;
      TurnHonest(answer, rounds[..n]);
      AsksHonest(rounds[n].0, AfterRounds(Fresh, rounds[..n]), AskList(rounds[n].0, rounds[n].1));
    }
  }

  // In any number of rounds the user is asked again about the same tool and resource
  // only after having interrupted an earlier prompt for it.
  lemma NeverAskedTwice(answer: nat -> A.Decision, rounds: seq<(World, seq<Parsed>)>, p: nat, q: nat)
    requires OneUser(answer, rounds)
    requires var prompts := AfterRounds(Fresh, rounds).prompts; p < q < |prompts| && prompts[p] == prompts[q]
    ensures answer(p) == A.Interrupted
  {
    TurnHonest(answer, rounds);
  }

  // A tool keeps its policy from round to round.
  ghost predicate OnePolicy(blanket: string -> bool, rounds: seq<(World, seq<Parsed>)>) {
    forall r :: 0 <= r < |rounds| ==> rounds[r].0.blanket == blanket
  }

  lemma {:induction false} TurnGrants(answer: nat -> A.Decision, blanket: string -> bool, rounds: seq<(World, seq<Parsed>)>)
    requires OneUser(answer, rounds) && OnePolicy(blanket, rounds)
    ensures GrantsFollow(answer, blanket, AfterRounds(Fresh, rounds))
  {
    if rounds != [] {
      var n := |rounds| - 1;
      TurnGrants(answer, blanket, rounds[..n]);
      TurnHonest(answer, rounds[..n]);
      AsksGrants(rounds[n].0, AfterRounds(Fresh, rounds[..n]), AskList(rounds[n].0, rounds[n].1));
      SameGrants(answer, blanket, AfterAsks(rounds[n].0, AfterRounds(Fresh, rounds[..n]), AskList(rounds[n].0, rounds[n].1)));
    }
  }

  lemma SameGrants(answer: nat -> A.Decision, blanket: string -> bool, st: Asking)
    requires GrantsFollow(answer, blanket, st)
    ensures GrantsFollow(answer, blanket, st.(interrupted := false))
  {
    forall g | g in st.grants ensures GrantFollows(answer, blanket, st.(interrupted := false), g) {
      GrantStays(answer, blanket, st, st.(interrupted := false), g);
    }
  }

  // Every permission that is written is one that the user's answer gave.
  lemma WrittenPermissionsWereGiven(answer: nat -> A.Decision, blanket: string -> bool,
          rounds: seq<(World, seq<Parsed>)>, g: Grant)
    requires OneUser(answer, rounds) && OnePolicy(blanket, rounds) && g in AfterRounds(Fresh, rounds).grants
    ensures GrantFollows(answer, blanket, AfterRounds(Fresh, rounds), g)
  {
    TurnGrants(answer, blanket, rounds);
  }

  // ---- What a call that runs had going for it ------------------------------------------------------

  lemma {:induction false} ApprovedEntry(w: World, st: Asking, asks: seq<AskEntry>, i: nat) returns (k: nat)
    requires i in Approved(w, st, asks)
    ensures k < |asks| && asks[k].index == i && FateOf(w, AfterAsks(w, st, asks[..k]), asks[k]) == Ran
  {
    var n := |asks| - 1;
    if i in Approved(w, st, asks[..n]) {
      k := ApprovedEntry(w, st, asks[..n], i);
      assert asks[..n][..k] == asks[..k];
    } else {
      k := n;
    }
  }

  ghost predicate Consented(answer: nat -> A.Decision, st: Asking, key: Key) {
    exists p :: 0 <= p < |st.prompts| && st.prompts[p] == key && answer(p) in {A.Approved, A.AlwaysAllow, A.AlwaysAllowAll}
  }

  lemma RanConsented(w: World, st: Asking, a: AskEntry)
    requires Honest(w.answer, st) && FateOf(w, st, a) == Ran
    ensures Consented(w.answer, AfterAsk(w, st, a), a.Key())
  {
    var after := AfterAsk(w, st, a);
    AskHonest(w, st, a);
    assert Remembered(w.answer, after, a.Key());
  }

  lemma {:induction false} ConsentStays(w: World, st: Asking, asks: seq<AskEntry>, k: nat, n: nat, key: Key)
    requires k <= n <= |asks| && Consented(w.answer, AfterAsks(w, st, asks[..k]), key)
    ensures Consented(w.answer, AfterAsks(w, st, asks[..n]), key)
    decreases n
  {
    if k < n {
      ConsentStays(w, st, asks, k, n - 1, key);
      AskStateStep(w, st, asks, n - 1);
      var before, after := AfterAsks(w, st, asks[..n - 1]), AfterAsks(w, st, asks[..n]);
      var p :| 0 <= p < |before.prompts| && before.prompts[p] == key && w.answer(p) in {A.Approved, A.AlwaysAllow, A.AlwaysAllowAll};
      assert after.prompts[p] == key;
    }
  }

  lemma AutosAllowed(w: World, calls: seq<Parsed>, i: nat)
    requires i in AtLevel(w, calls, Kept(w, calls), Always)
    ensures i < |calls| && Screen(w, calls[i]).None? && LevelOf(w, calls[i]) == Always
  {
    var autos := AtLevel(w, calls, Kept(w, calls), Always);
    var j :| 0 <= j < |autos| && autos[j] == i;
  }

  lemma AskedAllowed(w: World, calls: seq<Parsed>, st: Asking, i: nat)
    requires Honest(w.answer, st) && i in Approved(w, st, AskList(w, calls))
    ensures i < |calls| && Screen(w, calls[i]).None? && LevelOf(w, calls[i]) == Ask
    ensures Consented(w.answer, AfterAsks(w, st, AskList(w, calls)), EntryOf(w, calls[i], i).Key())
  {
    var kept, asks := Kept(w, calls), AskList(w, calls);
    var positions := AtLevel(w, calls, kept, Ask);
    var k := ApprovedEntry(w, st, asks, i);
    assert positions[k] == i && positions[k] in kept;
    ApprovedConsented(w, st, asks, k);
  }

  lemma ApprovedConsented(w: World, st: Asking, asks: seq<AskEntry>, k: nat)
    requires Honest(w.answer, st) && k < |asks| && FateOf(w, AfterAsks(w, st, asks[..k]), asks[k]) == Ran
    ensures Consented(w.answer, AfterAsks(w, st, asks), asks[k].Key())
  {
    AsksHonest(w, st, asks[..k]);
    RanConsented(w, AfterAsks(w, st, asks[..k]), asks[k]);
    AskStateStep(w, st, asks, k);
    ConsentStays(w, st, asks, k + 1, |asks|, asks[k].Key());
    assert asks[..|asks|] == asks;
  }

  // After any number of rounds a call of the next round runs only if its level is
  // "always", or its level is "ask" and the user allowed its tool and resource in
  // answer to a prompt of this turn.
  lemma RunsOnlyAllowed(answer: nat -> A.Decision, rounds: seq<(World, seq<Parsed>)>, w: World, calls: seq<Parsed>,
          i: nat)
    requires OneUser(answer, rounds) && w.answer == answer && i in Executed(w, calls, AfterRounds(Fresh, rounds))
    ensures i < |calls| && Screen(w, calls[i]).None? && LevelOf(w, calls[i]) != Never
    ensures LevelOf(w, calls[i]) == Ask ==>
      Consented(answer, AfterRound(AfterRounds(Fresh, rounds), w, calls), EntryOf(w, calls[i], i).Key())
  {
    TurnHonest(answer, rounds);
    if i in AtLevel(w, calls, Kept(w, calls), Always) {
      AutosAllowed(w, calls, i);
    } else {
      AskedAllowed(w, calls, AfterRounds(Fresh, rounds), i);
    }
  }

  // ---- Exactly who runs ------------------------------------------------------------------------------

  // The answer to the last prompt for a tool and resource.
  function LastAnswer(answer: nat -> A.Decision, prompts: seq<Key>, key: Key): Option<A.Decision> {
    if prompts == [] then None
    else if prompts[|prompts| - 1] == key then Some(answer(|prompts| - 1))
    else LastAnswer(answer, prompts[..|prompts| - 1], key)
  }

  lemma {:induction false} LastAnswerIs(answer: nat -> A.Decision, prompts: seq<Key>, key: Key, p: nat)
    requires p < |prompts| && prompts[p] == key && forall q :: p < q < |prompts| ==> prompts[q] != key
    ensures LastAnswer(answer, prompts, key) == Some(answer(p))
  {
    if p < |prompts| - 1 {
      LastAnswerIs(answer, prompts[..|prompts| - 1], key, p);
    }
  }

  lemma {:induction false} LastAnswerFrom(answer: nat -> A.Decision, prompts: seq<Key>, key: Key) returns (p: nat)
    requires LastAnswer(answer, prompts, key).Some?
    ensures p < |prompts| && prompts[p] == key && LastAnswer(answer, prompts, key) == Some(answer(p))
  {
    p := |prompts| - 1;
    if prompts[p] != key {
      p := LastAnswerFrom(answer, prompts[..p], key);
    }
  }

  // What is cached for a tool and resource is the last answer about it, and nothing is
  // where the user was never asked or interrupted.
  lemma CacheIsLastAnswer(answer: nat -> A.Decision, st: Asking, key: Key)
    requires Honest(answer, st)
    ensures key in st.cache ==> LastAnswer(answer, st.prompts, key) == Some(st.cache[key])
    ensures key !in st.cache ==> LastAnswer(answer, st.prompts, key) in {None, Some(A.Interrupted)}
  {
    if key in st.cache {
      assert Remembered(answer, st, key);
      var p :| 0 <= p < |st.prompts| && st.prompts[p] == key && st.cache[key] == answer(p);
      LastAnswerIs(answer, st.prompts, key, p);
    } else if LastAnswer(answer, st.prompts, key).Some? {
      var p := LastAnswerFrom(answer, st.prompts, key);
    }
  }

  // The answer that decides about an entry: the cached one, or else that to its prompt.
  lemma DecidedByAnswer(w: World, st: Asking, a: AskEntry)
    requires Honest(w.answer, st) && !st.interrupted
    ensures var before, d := LastAnswer(w.answer, st.prompts, a.Key()), LastAnswer(w.answer, AfterAsk(w, st, a).prompts, a.Key());
            && (a.Key() in st.cache || w.channel ==> d == Some(Decide(w, st, a)))
            && (a.Key() !in st.cache && !w.channel ==> d == before && Decide(w, st, a) == A.Denied)
            && (a.Key() !in st.cache <==> before in {None, Some(A.Interrupted)})
  {
    CacheIsLastAnswer(w.answer, st, a.Key());
    if a.Key() in st.cache {
      assert Remembered(w.answer, st, a.Key());
    }
  }

  lemma FateByAnswer(w: World, st: Asking, a: AskEntry)
    requires Honest(w.answer, st) && !st.interrupted
    ensures var before, d := LastAnswer(w.answer, st.prompts, a.Key()), LastAnswer(w.answer, AfterAsk(w, st, a).prompts, a.Key());
            && (FateOf(w, st, a) == Ran <==> d in {Some(A.Approved), Some(A.AlwaysAllow), Some(A.AlwaysAllowAll)})
            && (FateOf(w, st, a) == Declined <==>
                  d in {Some(A.Denied), Some(A.AlwaysDeny)} || (!w.channel && before in {None, Some(A.Interrupted)}))
  {
    DecidedByAnswer(w, st, a);
  }

  // No prompt of the round up to entry k was answered with an interruption.
  ghost predicate Uninterrupted(w: World, st: Asking, asks: seq<AskEntry>, k: nat)
    requires k <= |asks|
  {
    forall p :: |st.prompts| <= p < |AfterAsks(w, st, asks[..k]).prompts| ==> w.answer(p) != A.Interrupted
  }

  lemma {:induction false} StillAsking(w: World, st: Asking, asks: seq<AskEntry>, k: nat)
    requires Honest(w.answer, st) && !st.interrupted && k <= |asks| && Uninterrupted(w, st, asks, k)
    ensures !AfterAsks(w, st, asks[..k]).interrupted
    decreases k
  {
    if k > 0 {
      var before, a := AfterAsks(w, st, asks[..k - 1]), asks[k - 1];
      AskStateStep(w, st, asks, k - 1);
      AsksHonest(w, st, asks[..k - 1]);
      AskHonest(w, before, a);
      StillAsking(w, st, asks, k - 1);
      NotInterruptedBy(w, st, before, a);
    }
  }

  lemma NotInterruptedBy(w: World, st: Asking, before: Asking, a: AskEntry)
    requires Honest(w.answer, before) && !before.interrupted && Extends(st, before)
    requires forall p :: |st.prompts| <= p < |AfterAsk(w, before, a).prompts| ==> w.answer(p) != A.Interrupted
    ensures !AfterAsk(w, before, a).interrupted
  {
    if a.Key() in before.cache {
      assert Remembered(w.answer, before, a.Key());
    }
  }

  ghost predicate Apart(asks: seq<AskEntry>) {
    forall l, m :: 0 <= l < m < |asks| ==> asks[l].index != asks[m].index
  }

  lemma ApprovedStep(w: World, st: Asking, asks: seq<AskEntry>, n: nat, i: nat)
    requires n < |asks|
    ensures i in Approved(w, st, asks[..n + 1]) <==>
      (i in Approved(w, st, asks[..n]) || (asks[n].index == i && FateOf(w, AfterAsks(w, st, asks[..n]), asks[n]) == Ran))
  {
    AskStateStep(w, st, asks, n);
  }

  lemma {:induction false} ApprovedAt(w: World, st: Asking, asks: seq<AskEntry>, k: nat, n: nat)
    requires Apart(asks) && k < n <= |asks|
    ensures asks[k].index in Approved(w, st, asks[..n]) <==> FateOf(w, AfterAsks(w, st, asks[..k]), asks[k]) == Ran
    decreases n
  {
    ApprovedStep(w, st, asks, n - 1, asks[k].index);
    if k < n - 1 {
      ApprovedAt(w, st, asks, k, n - 1);
    } else {
      NotApproved(w, st, asks[..k], asks[k].index);
    }
  }

  lemma {:induction false} NotRefused(w: World, st: Asking, asks: seq<AskEntry>, i: nat, f: Fate)
    requires forall k :: 0 <= k < |asks| ==> asks[k].index != i
    ensures (i, f) !in Refused(w, st, asks)
  {
    if asks != [] {
      NotRefused(w, st, asks[..|asks| - 1], i, f);
    }
  }

  lemma RefusedNext(w: World, st: Asking, asks: seq<AskEntry>, n: nat, x: (nat, Fate))
    requires n < |asks|
    ensures x in Refused(w, st, asks[..n + 1]) <==>
      (x in Refused(w, st, asks[..n]) || (asks[n].index == x.0 && x.1 != Ran && FateOf(w, AfterAsks(w, st, asks[..n]), asks[n]) == x.1))
  {
    assert asks[..n + 1][..n] == asks[..n];
  }

  lemma {:induction false} RefusedAt(w: World, st: Asking, asks: seq<AskEntry>, k: nat, n: nat, f: Fate)
    requires Apart(asks) && k < n <= |asks| && f != Ran
    ensures (asks[k].index, f) in Refused(w, st, asks[..n]) <==> FateOf(w, AfterAsks(w, st, asks[..k]), asks[k]) == f
    decreases n
  {
    RefusedNext(w, st, asks, n - 1, (asks[k].index, f));
    if k < n - 1 {
      RefusedAt(w, st, asks, k, n - 1, f);
    } else {
      NotRefused(w, st, asks[..k], asks[k].index, f);
    }
  }

  lemma {:induction false} ScreenedFates(w: World, calls: seq<Parsed>)
    ensures forall x :: x in Screened(w, calls) ==> x.1 in {Malformed, Unknown, Invalid}
  {
    if calls != [] {
      ScreenedFates(w, calls[..|calls| - 1]);
    }
  }

  lemma {:induction false} AllFates(positions: seq<nat>, f: Fate)
    ensures forall x :: x in All(positions, f) ==> x.1 == f
  {
    if positions != [] {
      AllFates(positions[..|positions| - 1], f);
    }
  }

  lemma DeclinedInFates(w: World, calls: seq<Parsed>, st: Asking, i: nat)
    ensures (i, Declined) in Fates(w, calls, st) <==> (i, Declined) in Refused(w, st, AskList(w, calls))
  {
    ScreenedFates(w, calls);
    AllFates(AtLevel(w, calls, Kept(w, calls), Never), Forbidden);
    AllFates(Executed(w, calls, st), Ran);
  }

  lemma AskListApart(w: World, calls: seq<Parsed>)
    ensures Apart(AskList(w, calls))
  {
    var asks := AskList(w, calls);
    forall l, m | 0 <= l < m < |asks| ensures asks[l].index != asks[m].index {
      AsksApart(w, calls, m, m);
    }
  }

  // In any number of rounds, as long as no prompt of the round was answered with an
  // interruption: a call that needs approval runs if and only if the last answer about
  // its tool and resource is one of the three that allow it.  It is declined if and only
  // if that answer is one of the two that refuse, or there is none that counts and no
  // channel to ask on.
  lemma AskedFate(answer: nat -> A.Decision, rounds: seq<(World, seq<Parsed>)>, w: World, calls: seq<Parsed>, k: nat)
    requires OneUser(answer, rounds) && w.answer == answer && k < |AskList(w, calls)|
    requires Uninterrupted(w, AfterRounds(Fresh, rounds), AskList(w, calls), k)
    ensures var st, asks := AfterRounds(Fresh, rounds), AskList(w, calls);
            var before := LastAnswer(answer, AfterAsks(w, st, asks[..k]).prompts, asks[k].Key());
            var last := LastAnswer(answer, AfterAsks(w, st, asks[..k + 1]).prompts, asks[k].Key());
            && (asks[k].index in Executed(w, calls, st) <==>
                  last in {Some(A.Approved), Some(A.AlwaysAllow), Some(A.AlwaysAllowAll)})
            && ((asks[k].index, Declined) in Fates(w, calls, st) <==>
                  last in {Some(A.Denied), Some(A.AlwaysDeny)} || (!w.channel && before in {None, Some(A.Interrupted)}))
  {
    var st, asks := AfterRounds(Fresh, rounds), AskList(w, calls);
    TurnHonest(answer, rounds);
    NeverInterruptedBetween(rounds);
    AsksHonest(w, st, asks[..k]);
    StillAsking(w, st, asks, k);
    AskStateStep(w, st, asks, k);
    FateByAnswer(w, AfterAsks(w, st, asks[..k]), asks[k]);
    FateIsResult(w, calls, st, k);
  }

  lemma NeverInterruptedBetween(rounds: seq<(World, seq<Parsed>)>)
    ensures !AfterRounds(Fresh, rounds).interrupted
  {
  }

  lemma FateIsResult(w: World, calls: seq<Parsed>, st: Asking, k: nat)
    requires k < |AskList(w, calls)|
    ensures var asks := AskList(w, calls); var f := FateOf(w, AfterAsks(w, st, asks[..k]), asks[k]);
            && (asks[k].index in Executed(w, calls, st) <==> f == Ran)
            && ((asks[k].index, Declined) in Fates(w, calls, st) <==> f == Declined)
  {
    var asks := AskList(w, calls);
    AskListApart(w, calls);
    ApprovedAt(w, st, asks, k, |asks|);
    RefusedAt(w, st, asks, k, |asks|, Declined);
    DeclinedInFates(w, calls, st, asks[k].index);
    AskedIsNotAuto(w, calls, k);
    assert asks[..|asks|] == asks;
  }

  // A call that can be considered at all, with the arguments it would run with.
  predicate Runnable(w: World, p: Parsed, args: string) {
    p.arguments.Some? && w.known(p.name) && w.validated(p.name, p.arguments.value) == Some(args)
  }

  lemma {:induction false} KeptIff(w: World, calls: seq<Parsed>, i: nat)
    ensures i in Kept(w, calls) <==> i < |calls| && exists args :: Runnable(w, calls[i], args)
  {
    if calls != [] {
      var n := |calls| - 1;
      KeptIff(w, calls[..n], i);
      KeptLast(w, calls, i);
    }
  }

  lemma KeptLast(w: World, calls: seq<Parsed>, i: nat)
    requires calls != []
    ensures i in Kept(w, calls) <==>
      (i in Kept(w, calls[..|calls| - 1]) || (i == |calls| - 1 && exists args :: Runnable(w, calls[i], args)))
  {
    var p := calls[|calls| - 1];
    if Screen(w, p).None? {
      assert Runnable(w, p, w.validated(p.name, p.arguments.value).value);
    }
  }

  lemma {:induction false} AtLevelIff(w: World, calls: seq<Parsed>, kept: seq<nat>, level: Level, i: nat)
    requires Positions(calls, kept)
    ensures i in AtLevel(w, calls, kept, level) <==> i in kept && i < |calls| && LevelOf(w, calls[i]) == level
  {
    if kept != [] {
      AtLevelIff(w, calls, kept[..|kept| - 1], level, i);
      assert kept == kept[..|kept| - 1] + [kept[|kept| - 1]];
    }
  }

  lemma LevelIff(w: World, calls: seq<Parsed>, level: Level, i: nat)
    ensures i in AtLevel(w, calls, Kept(w, calls), level) <==>
      i < |calls| && exists args :: Runnable(w, calls[i], args) && w.level(calls[i].name, args) == level
  {
    KeptIff(w, calls, i);
    AtLevelIff(w, calls, Kept(w, calls), level, i);
    if i < |calls| && exists args :: Runnable(w, calls[i], args) {
      var args :| Runnable(w, calls[i], args);
      assert ValidatedArgs(w, calls[i]) == args;
    }
  }

  // Which calls the user is asked about, and what for: those that are known and valid
  // and whose level is "ask", in the order of the request.
  lemma AskListIs(w: World, calls: seq<Parsed>, i: nat)
    ensures (exists k :: 0 <= k < |AskList(w, calls)| && AskList(w, calls)[k].index == i) <==>
      i < |calls| && exists args :: Runnable(w, calls[i], args) && w.level(calls[i].name, args) == Ask
    ensures forall k, args :: 0 <= k < |AskList(w, calls)| && AskList(w, calls)[k].index == i && i < |calls| && Runnable(w, calls[i], args) ==>
      AskList(w, calls)[k].Key() == (calls[i].name, w.resource(calls[i].name, args))
    ensures forall j, k :: 0 <= j < k < |AskList(w, calls)| ==> AskList(w, calls)[j].index < AskList(w, calls)[k].index
  {
    var asks, positions := AskList(w, calls), AtLevel(w, calls, Kept(w, calls), Ask);
    LevelIff(w, calls, Ask, i);
    KeptAscends(w, calls);
    AtLevelAscends(w, calls, Kept(w, calls), Ask);
    if i in positions {
      var k :| 0 <= k < |positions| && positions[k] == i;
      assert asks[k].index == i;
    }
    assert forall j, k :: 0 <= j < k < |asks| ==> positions[j] < positions[k];
  }

  // A call runs if and only if it is known and valid, and its level is "always" or the
  // user's answer let it through.
  lemma RunsIff(w: World, calls: seq<Parsed>, st: Asking, i: nat)
    ensures i in Executed(w, calls, st) <==>
      i < |calls| && exists args ::
        && Runnable(w, calls[i], args)
        && (w.level(calls[i].name, args) == Always ||
            (w.level(calls[i].name, args) == Ask && i in Approved(w, st, AskList(w, calls))))
  {
    LevelIff(w, calls, Always, i);
    AskListIs(w, calls, i);
    if i in Approved(w, st, AskList(w, calls)) {
      var k := ApprovedEntry(w, st, AskList(w, calls), i);
    }
  }
}
