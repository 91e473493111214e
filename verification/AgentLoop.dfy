/**
 The agent loop of one turn: LLM calls, rounds of tool calls, messages that arrive
 in the meantime, and the token budget.

 What the model answers and what arrives comes from `Turn`.  `Process` is the
 loop; besides its outcome it returns the prompt and the budget of every LLM call,
 and for every drain of the inbox the LLM call that came next.
 */
module AgentLoop {
  import opened Messages
  import H = History
  import T = Trimming
  import ToolRound

  const MAX_TOKENS_CEILING := 16384

  datatype Stop = EndTurn | MaxTokens | ToolUse | StopSequence | Unset | Other(reason: string)

  datatype Response = Response(stop: Stop, text: string, calls: seq<ToolRound.Parsed>)

  // respond gives the response of every LLM call, None when it raises; arrived the
  // texts and row numbers that every drain of the inbox finds.
  datatype Turn = Turn(
    respond: nat -> Option<Response>,
    arrived: nat -> seq<(string, nat)>,
    world: nat -> ToolRound.World,
    maxRounds: nat,
    defaultTokens: nat,
    wrapUp: bool,
    alreadyReplied: bool,
    instruction: string)

  // Answered: the text of the given LLM call is sent.  Canned: the fixed text for a
  // turn that ran out of rounds.  Aborted: the error text, which is not stored.
  datatype Outcome = Answered(call: nat, text: string) | Canned | Aborted | Raised

  // ---- Well-formed prompts --------------------------------------------------------

  predicate NoSystem(ms: seq<Message>) {
    forall i :: 0 <= i < |ms| ==> !ms[i].System?
  }

  ghost predicate WellFormed(ms: seq<Message>) {
    ms != [] && ms[0].System? && NoSystem(ms[1..]) && Paired(ms[1..])
  }

  lemma AppendWellFormed(ms: seq<Message>, more: seq<Message>)
    requires WellFormed(ms) && NoSystem(more) && Paired(more)
    ensures WellFormed(ms + more)
  {
    TailAppended(ms, more);
    PairedConcat(ms[1..], more);
  }

  lemma TailAppended(ms: seq<Message>, more: seq<Message>)
    requires ms != [] && NoSystem(ms[1..]) && NoSystem(more)
    ensures (ms + more)[1..] == ms[1..] + more && NoSystem((ms + more)[1..]) && (ms + more)[0] == ms[0]
  {
  }

  lemma {:induction false} NonSystemAll(ms: seq<Message>)
    requires NoSystem(ms)
    ensures NonSystem(ms) == ms
  {
    if ms != [] {
      NonSystemAll(ms[..|ms| - 1]);
    }
  }

  lemma {:induction false} NonSystemTail(m: Message, rest: seq<Message>)
    requires m.System?
    ensures NonSystem([m] + rest) == NonSystem(rest)
  {
    if rest == [] {
      assert [m] + rest == [m] && [m][..0] == [];
    } else {
      NonSystemTail(m, rest[..|rest| - 1]);
      assert ([m] + rest)[..|rest|] == [m] + rest[..|rest| - 1];
    }
  }

  // A well-formed prompt is serialized to what the API demands.
  lemma WellFormedRequest(ms: seq<Message>)
    requires WellFormed(ms)
    ensures ApiPaired(Api(ms))
  {
    assert ms == [ms[0]] + ms[1..];
    NonSystemTail(ms[0], ms[1..]);
    NonSystemAll(ms[1..]);
    SerializedPaired(ms);
  }

  // ---- Arrivals ---------------------------------------------------------------------

  function UserMessages(xs: seq<(string, nat)>): (ms: seq<Message>)
    ensures |ms| == |xs| && forall i :: 0 <= i < |ms| ==> ms[i].User?
  {
    if xs == [] then [] else UserMessages(xs[..|xs| - 1]) + [User(xs[|xs| - 1].0, Some(xs[|xs| - 1].1))]
  }

  lemma {:induction false} UsersPaired(ms: seq<Message>)
    requires forall i :: 0 <= i < |ms| ==> ms[i].User?
    ensures Paired(ms)
  {
    if ms != [] {
      UsersPaired(ms[1..]);
      PairedCons(ms[0], ms[1..]);
      assert ms == [ms[0]] + ms[1..];
    }
  }

  lemma FoldWellFormed(ms: seq<Message>, xs: seq<(string, nat)>)
    requires WellFormed(ms)
    ensures WellFormed(ms + UserMessages(xs))
  {
    UsersPaired(UserMessages(xs));
    AppendWellFormed(ms, UserMessages(xs));
  }

  lemma ResultsWellFormed(ms: seq<Message>, call: Message, results: seq<Message>)
    requires WellFormed(ms) && Calls(call) && Leading(results) == |results|
    requires multiset(ResultIds(results)) == multiset(CallIds(call.calls))
    ensures WellFormed(ms + [call] + results)
  {
    RoundPaired(call, results);
    AppendWellFormed(ms, [call] + results);
    Assoc(ms, [call], results);
  }

  lemma RoundWellFormed(ms: seq<Message>, w: ToolRound.World, calls: seq<ToolRound.Parsed>, st: ToolRound.Asking,
          text: string)
    requires WellFormed(ms) && calls != []
    ensures WellFormed(ms + [Assistant(text, ToolRound.Requests(calls), None)] +
      ToolRound.Rendered(w, calls, ToolRound.Fates(w, calls, st)))
  {
    ToolRound.OneResultPerCall(w, calls, st);
    ResultsWellFormed(ms, Assistant(text, ToolRound.Requests(calls), None),
      ToolRound.Rendered(w, calls, ToolRound.Fates(w, calls, st)));
  }

  // ---- The token budget -------------------------------------------------------------

  function Effective(tokens: Option<nat>, byDefault: nat): nat {
    if tokens.Some? && tokens.value != 0 then tokens.value else byDefault
  }

  function Pow2(j: nat): nat {
    if j == 0 then 1 else 2 * Pow2(j - 1)
  }

  // The budget after j truncated responses.
  function Budget(init: nat, j: nat): nat {
    if init >= MAX_TOKENS_CEILING then init
    else if init * Pow2(j) < MAX_TOKENS_CEILING then init * Pow2(j) else MAX_TOKENS_CEILING
  }

  function Doubled(effective: nat): nat {
    if effective * 2 < MAX_TOKENS_CEILING then effective * 2 else MAX_TOKENS_CEILING
  }

  function Max(a: nat, b: nat): nat {
    if a < b then b else a
  }

  lemma BudgetRaise(init: nat, j: nat)
    ensures Budget(init, j + 1) == Max(Budget(init, j), Doubled(Budget(init, j)))
    ensures Budget(init, j) < MAX_TOKENS_CEILING ==> Budget(init, j + 1) == Doubled(Budget(init, j))
  {
    assert init * Pow2(j + 1) == 2 * (init * Pow2(j));
  }

  lemma BudgetStart(init: nat)
    ensures Budget(init, 0) == init
  {
    assert init * Pow2(0) == init;
  }

  predicate IsTruncated(t: Turn, k: nat) {
    t.respond(k).Some? && t.respond(k).value.stop == MaxTokens
  }

  // How many of the first k responses were truncated.
  function Truncations(t: Turn, k: nat): nat {
    if k == 0 then 0 else Truncations(t, k - 1) + (if IsTruncated(t, k - 1) then 1 else 0)
  }

  // ---- What is true of every turn ---------------------------------------------------

  predicate Valid(s: Stop) {
    !s.Other?
  }

  // Not a partial emission and not an error.
  predicate Deliverable(t: Turn, k: nat) {
    t.respond(k).Some? && Valid(t.respond(k).value.stop) &&
    !(t.respond(k).value.stop == MaxTokens && t.respond(k).value.calls == [])
  }

  // ---- When a turn goes on and how it ends ------------------------------------------

  // A whole response without tool calls.
  predicate IsDraft(t: Turn, k: nat) {
    Deliverable(t, k) && t.respond(k).value.calls == []
  }

  // The inbox is drained before every call, and after a draft that is not the last
  // the rounds allow.
  function DrainsBefore(t: Turn, k: nat): nat {
    if k == 0 then 0 else DrainsBefore(t, k - 1) + 1 + (if IsDraft(t, k - 1) && k < t.maxRounds then 1 else 0)
  }

  // A truncated response without tool calls is retried below the ceiling only, a draft
  // is dropped only for a message that arrived meanwhile while a round is left, and
  // otherwise it takes tool calls to go on.
  predicate Retried(t: Turn, init: nat, k: nat) {
    IsTruncated(t, k) && t.respond(k).value.calls == [] && Budget(init, Truncations(t, k)) < MAX_TOKENS_CEILING
  }

  predicate Discarded(t: Turn, k: nat) {
    IsDraft(t, k) && k + 1 < t.maxRounds && t.arrived(DrainsBefore(t, k) + 1) != []
  }

  predicate RanTools(t: Turn, k: nat) {
    Deliverable(t, k) && t.respond(k).value.calls != []
  }

  predicate GoesOn(t: Turn, init: nat, k: nat) {
    Retried(t, init, k) || Discarded(t, k) || RanTools(t, k)
  }

  function EndOf(t: Turn, k: nat): Outcome {
    if t.respond(k) == None then Raised
    else if IsDraft(t, k) then Answered(k, t.respond(k).value.text)
    else Aborted
  }

  predicate Usable(t: Turn, k: nat) {
    Deliverable(t, k) && t.respond(k).value.stop != MaxTokens && t.respond(k).value.text != ""
  }

  // No round is left: a wrap-up call is made exactly when the last response has tool
  // calls and no text, and nothing was sent by a tool.
  predicate OutOfRounds(t: Turn, outcome: Outcome, calls: nat)
    requires 1 <= t.maxRounds
  {
    t.respond(t.maxRounds - 1).Some? &&
    var last := t.respond(t.maxRounds - 1).value;
    if last.calls == [] then calls == t.maxRounds && outcome == Aborted
    else if !t.wrapUp || last.text != "" || t.alreadyReplied then
      calls == t.maxRounds && outcome == Answered(t.maxRounds - 1, last.text)
    else
      && calls == t.maxRounds + 1
      && outcome == if Usable(t, t.maxRounds) then Answered(t.maxRounds, t.respond(t.maxRounds).value.text) else Canned
  }

  // Every call but the last went on, and the last ended the turn or was the last one
  // that the rounds allow.
  ghost predicate EndsRight(t: Turn, init: nat, outcome: Outcome, calls: nat)
    requires 1 <= t.maxRounds
  {
    && 1 <= calls <= t.maxRounds + 1
    && (forall k :: 0 <= k < calls - 1 ==> GoesOn(t, init, k))
    && if calls <= t.maxRounds && !GoesOn(t, init, calls - 1) then outcome == EndOf(t, calls - 1)
       else calls >= t.maxRounds && OutOfRounds(t, outcome, calls)
  }

  lemma NotEarlier(t: Turn, init: nat, o: Outcome, m: nat, p: Outcome, n: nat)
    requires 1 <= t.maxRounds && EndsRight(t, init, o, m) && EndsRight(t, init, p, n)
    ensures n <= m
  {
    var last: nat := m - 1;
    assert m < n ==> GoesOn(t, init, last);
  }

  // That leaves nothing open: the responses and the arrivals fix the number of calls
  // and the outcome.
  lemma OneOutcome(t: Turn, init: nat, o: Outcome, m: nat, p: Outcome, n: nat)
    requires 1 <= t.maxRounds && EndsRight(t, init, o, m) && EndsRight(t, init, p, n)
    ensures o == p && m == n
  {
    NotEarlier(t, init, o, m, p, n);
    NotEarlier(t, init, p, n, o, m);
  }

  // The same in the fields of the responses: after which a turn goes on.
  lemma GoesOnIff(t: Turn, init: nat, k: nat)
    ensures GoesOn(t, init, k) <==>
      t.respond(k).Some? &&
      var r := t.respond(k).value;
      && r.stop in {EndTurn, MaxTokens, Stop.ToolUse, StopSequence, Unset}
      && (if r.calls != [] then true
          else if r.stop == MaxTokens then Budget(init, Truncations(t, k)) < 16384
          else k + 1 < t.maxRounds && t.arrived(DrainsBefore(t, k) + 1) != [])
  {
  }

  // And how it ends where it does not.
  lemma EndIs(t: Turn, init: nat, k: nat)
    requires !GoesOn(t, init, k)
    ensures EndOf(t, k) ==
      if t.respond(k) == None then Raised
      else if t.respond(k).value.calls == [] && t.respond(k).value.stop in {EndTurn, Stop.ToolUse, StopSequence, Unset}
      then Answered(k, t.respond(k).value.text)
      else Aborted
  {
    GoesOnIff(t, init, k);
  }

  // What is sent when the rounds ran out, in the fields of the last two responses.
  lemma LastWordIs(t: Turn, outcome: Outcome, calls: nat)
    requires 1 <= t.maxRounds && OutOfRounds(t, outcome, calls)
    ensures var last, wrap := t.respond(t.maxRounds - 1).value, t.respond(t.maxRounds);
            if last.calls == [] then outcome == Aborted && calls == t.maxRounds
            else if t.wrapUp && last.text == "" && !t.alreadyReplied then
              && calls == t.maxRounds + 1
              && outcome == (if wrap.Some? && wrap.value.stop in {EndTurn, Stop.ToolUse, StopSequence, Unset} && wrap.value.text != ""
                             then Answered(t.maxRounds, wrap.value.text) else Canned)
            else outcome == Answered(t.maxRounds - 1, last.text) && calls == t.maxRounds
  {
  }

  ghost function TruncatedBefore(t: Turn, k: nat): set<nat> {
    set j: nat | j < k && t.respond(j).Some? && t.respond(j).value.stop == MaxTokens
  }

  lemma OneMoreTruncated(t: Turn, k: nat)
    requires 0 < k
    ensures |TruncatedBefore(t, k)| == |TruncatedBefore(t, k - 1)| + (if IsTruncated(t, k - 1) then 1 else 0)
  {
    assert TruncatedBefore(t, k) == if IsTruncated(t, k - 1) then TruncatedBefore(t, k - 1) + {k - 1} else TruncatedBefore(t, k - 1);
  }

  // How many of the first k responses were truncated.
  lemma {:induction false} TruncationsCount(t: Turn, k: nat)
    ensures Truncations(t, k) == |TruncatedBefore(t, k)|
  {
    if k > 0 {
      TruncationsCount(t, k - 1);
      OneMoreTruncated(t, k);
    }
  }

  // A whole draft in the fields of its response, with a round left behind it.
  predicate DraftWithRoundLeft(t: Turn, j: nat) {
    && t.respond(j).Some? && t.respond(j).value.calls == []
    && t.respond(j).value.stop in {EndTurn, Stop.ToolUse, StopSequence, Unset} && j + 1 < t.maxRounds
  }

  ghost function DraftsBefore(t: Turn, k: nat): set<nat> {
    set j: nat | j < k && DraftWithRoundLeft(t, j)
  }

  lemma DraftIs(t: Turn, k: nat)
    requires 0 < k <= t.maxRounds
    ensures DrainsBefore(t, k) == DrainsBefore(t, k - 1) + 1 + (if DraftWithRoundLeft(t, k - 1) then 1 else 0)
  {
  }

  lemma OneMoreDraft(t: Turn, k: nat)
    requires 0 < k
    ensures |DraftsBefore(t, k)| == |DraftsBefore(t, k - 1)| + (if DraftWithRoundLeft(t, k - 1) then 1 else 0)
  {
    assert DraftsBefore(t, k) == if DraftWithRoundLeft(t, k - 1) then DraftsBefore(t, k - 1) + {k - 1} else DraftsBefore(t, k - 1);
  }

  // Before call k the inbox was drained once for each earlier call and once for each
  // draft that could still be dropped.
  lemma {:induction false} DrainsCount(t: Turn, k: nat)
    requires k <= t.maxRounds
    ensures DrainsBefore(t, k) == k + |DraftsBefore(t, k)|
  {
    if k > 0 {
      DrainsCount(t, k - 1);
      DraftIs(t, k);
      OneMoreDraft(t, k);
    }
  }

  // The budget of the first call: what the caller gave, unless that is nothing or 0.
  lemma FirstBudget(tokens: Option<nat>, byDefault: nat)
    ensures Effective(None, byDefault) == Effective(Some(0), byDefault) == byDefault
    ensures tokens.Some? && 0 < tokens.value ==> Effective(tokens, byDefault) == tokens.value
  {
  }

  // ---- What a prompt holds -----------------------------------------------------------

  // What the agent remembers before round k.
  function Memory(t: Turn, st: ToolRound.Asking, k: nat): ToolRound.Asking {
    if k == 0 then st
    else if RanTools(t, k - 1) then
      ToolRound.AfterRound(Memory(t, st, k - 1), t.world(k - 1), t.respond(k - 1).value.calls)
    else Memory(t, st, k - 1)
  }

  // What response k leaves for the next call: its tool calls with their results, or
  // what made its draft stale.
  function Reaction(t: Turn, st: ToolRound.Asking, k: nat): seq<Message> {
    if RanTools(t, k) then RoundMessages(t, Memory(t, st, k), k)
    else if Discarded(t, k) then UserMessages(t.arrived(DrainsBefore(t, k) + 1))
    else []
  }

  function RoundMessages(t: Turn, st: ToolRound.Asking, k: nat): seq<Message>
    requires RanTools(t, k)
  {
    var calls := t.respond(k).value.calls;
    [Assistant(t.respond(k).value.text, ToolRound.Requests(calls), None)] +
    ToolRound.Rendered(t.world(k), calls, ToolRound.Fates(t.world(k), calls, st))
  }

  // What is added right before call k.
  function Lead(t: Turn, k: nat): seq<Message> {
    if k < t.maxRounds then UserMessages(t.arrived(DrainsBefore(t, k))) else [User(t.instruction, None)]
  }

  // The messages before what is added right before call k.
  function Carried(added: nat -> seq<Message>, initial: seq<Message>, prompts: seq<seq<Message>>, k: nat): seq<Message>
    requires k <= |prompts|
  {
    if k == 0 then initial else prompts[k - 1] + added(k - 1)
  }

  // Every prompt is the one before it, what its response added, and what leads the call.
  ghost predicate PromptsAre(t: Turn, added: nat -> seq<Message>, initial: seq<Message>, prompts: seq<seq<Message>>) {
    forall k {:trigger PromptIs(t, added, initial, prompts, k)} :: 0 <= k < |prompts| ==> PromptIs(t, added, initial, prompts, k)
  }

  predicate PromptIs(t: Turn, added: nat -> seq<Message>, initial: seq<Message>, prompts: seq<seq<Message>>, k: nat)
    requires k < |prompts|
  {
    prompts[k] == Carried(added, initial, prompts, k) + Lead(t, k)
  }

  lemma OneMorePrompt(t: Turn, added: nat -> seq<Message>, initial: seq<Message>, prompts: seq<seq<Message>>, next: seq<Message>)
    requires PromptsAre(t, added, initial, prompts) && next == Carried(added, initial, prompts, |prompts|) + Lead(t, |prompts|)
    ensures PromptsAre(t, added, initial, prompts + [next])
  {
    var more := prompts + [next];
    forall k | 0 <= k < |more|
      ensures PromptIs(t, added, initial, more, k)
    {
      assert k < |prompts| ==> PromptIs(t, added, initial, prompts, k);
      assert k > 0 ==> more[k - 1] == prompts[k - 1];
      assert k < |prompts| ==> more[k] == prompts[k];
    }
  }

  ghost function Reactions(t: Turn, st: ToolRound.Asking): nat -> seq<Message> {
    (k: nat) => Reaction(t, st, k)
  }

  ghost function Memories(t: Turn, st: ToolRound.Asking): nat -> ToolRound.Asking {
    (k: nat) => Memory(t, st, k)
  }

  // What round k does to the messages and to what the agent remembers.
  ghost predicate ReactsAt(t: Turn, added: nat -> seq<Message>, memory: nat -> ToolRound.Asking, k: nat) {
    if RanTools(t, k) then
      && added(k) == RoundMessages(t, memory(k), k)
      && memory(k + 1) == ToolRound.AfterRound(memory(k), t.world(k), t.respond(k).value.calls)
    else
      && added(k) == (if Discarded(t, k) then UserMessages(t.arrived(DrainsBefore(t, k) + 1)) else [])
      && memory(k + 1) == memory(k)
  }

  ghost predicate Reacts(t: Turn, added: nat -> seq<Message>, memory: nat -> ToolRound.Asking) {
    forall k: nat {:trigger ReactsAt(t, added, memory, k)} :: ReactsAt(t, added, memory, k)
  }

  lemma ReactionsReact(t: Turn, st: ToolRound.Asking)
    ensures Reacts(t, Reactions(t, st), Memories(t, st)) && Memories(t, st)(0) == st
  {
    forall k: nat
      ensures ReactsAt(t, Reactions(t, st), Memories(t, st), k)
    {
      ReactionAt(t, st, k);
    }
  }

  lemma ReactionAt(t: Turn, st: ToolRound.Asking, k: nat)
    ensures ReactsAt(t, Reactions(t, st), Memories(t, st), k)
  {
    assert Reactions(t, st)(k) == Reaction(t, st, k);
    assert Memories(t, st)(k) == Memory(t, st, k) && Memories(t, st)(k + 1) == Memory(t, st, k + 1);
  }

  // ---- What the loop keeps ----------------------------------------------------------

  ghost predicate PromptsOk(prompts: seq<seq<Message>>) {
    && (forall k :: 0 <= k < |prompts| ==> WellFormed(prompts[k]))
    && (forall k :: 0 < k < |prompts| ==> prompts[k - 1] <= prompts[k])
  }

  predicate AllIn(xs: seq<(string, nat)>, ms: seq<Message>) {
    forall m :: m in UserMessages(xs) ==> m in ms
  }

  // Every message that drain j found is in the prompt of the LLM call that came next.
  ghost predicate Served(t: Turn, drains: seq<nat>, prompts: seq<seq<Message>>) {
    forall j :: 0 <= j < |drains| && t.arrived(j) != [] ==>
      drains[j] < |prompts| && AllIn(t.arrived(j), prompts[drains[j]])
  }

  // Or it will be: the messages of the next call have it.
  ghost predicate Folded(t: Turn, drains: seq<nat>, prompts: seq<seq<Message>>, messages: seq<Message>) {
    forall j :: 0 <= j < |drains| && t.arrived(j) != [] ==>
      if drains[j] < |prompts| then AllIn(t.arrived(j), prompts[drains[j]])
      else drains[j] == |prompts| && AllIn(t.arrived(j), messages)
  }

  ghost predicate BudgetsOk(t: Turn, init: nat, budgets: seq<nat>) {
    forall k :: 0 <= k < |budgets| ==> budgets[k] == Budget(init, Truncations(t, k))
  }

  ghost predicate LoopOk(t: Turn, round: nat, messages: seq<Message>, prompts: seq<seq<Message>>) {
    && WellFormed(messages) && PromptsOk(prompts) && |prompts| == round
    && (prompts != [] ==> prompts[|prompts| - 1] <= messages)
  }

  lemma CallOk(t: Turn, round: nat, messages: seq<Message>, prompts: seq<seq<Message>>, drains: seq<nat>)
    requires LoopOk(t, round, messages, prompts) && Folded(t, drains, prompts, messages)
    ensures LoopOk(t, round + 1, messages, prompts + [messages]) && Served(t, drains, prompts + [messages])
  {
  }

  lemma FoldOk(t: Turn, round: nat, messages: seq<Message>, prompts: seq<seq<Message>>, drains: seq<nat>)
    requires LoopOk(t, round, messages, prompts) && Folded(t, drains, prompts, messages)
    ensures var folded := messages + UserMessages(t.arrived(|drains|));
            LoopOk(t, round, folded, prompts) && Folded(t, drains + [|prompts|], prompts, folded)
  {
    FoldWellFormed(messages, t.arrived(|drains|));
  }

  lemma ServedFolded(t: Turn, messages: seq<Message>, prompts: seq<seq<Message>>, drains: seq<nat>)
    requires Served(t, drains, prompts)
    ensures Folded(t, drains, prompts, messages)
  {
  }

  lemma RoundOk(t: Turn, round: nat, messages: seq<Message>, prompts: seq<seq<Message>>,
                w: ToolRound.World, calls: seq<ToolRound.Parsed>, st: ToolRound.Asking, text: string)
    requires LoopOk(t, round, messages, prompts) && calls != []
    ensures LoopOk(t, round, messages + [Assistant(text, ToolRound.Requests(calls), None)] +
      ToolRound.Rendered(w, calls, ToolRound.Fates(w, calls, st)), prompts)
  {
    RoundWellFormed(messages, w, calls, st, text);
  }

  // Why a turn ended as it did: the text that is sent is that of the last LLM call.
  ghost predicate OutcomeOk(t: Turn, outcome: Outcome, calls: nat) {
    match outcome
    case Answered(k, text) => k + 1 == calls && Deliverable(t, k) && text == t.respond(k).value.text
    case Canned => calls == t.maxRounds + 1 && t.wrapUp && !t.alreadyReplied
    case Aborted =>
      0 < calls <= t.maxRounds && t.respond(calls - 1).Some? && !Deliverable(t, calls - 1)
    case Raised => 0 < calls <= t.maxRounds && t.respond(calls - 1) == None
  }

  lemma EndsOk(t: Turn, init: nat, outcome: Outcome, calls: nat)
    requires 1 <= t.maxRounds && EndsRight(t, init, outcome, calls)
    ensures OutcomeOk(t, outcome, calls)
  {
    assert calls > t.maxRounds ==> GoesOn(t, init, t.maxRounds - 1);
  }

  // What holds before a round.
  ghost predicate Going(t: Turn, init: nat, round: nat, messages: seq<Message>, tokens: Option<nat>,
                        prompts: seq<seq<Message>>, budgets: seq<nat>, drains: seq<nat>) {
    && Called(t, init, round, messages, tokens, prompts, budgets, drains)
    && Went(t, init, round) && |drains| == DrainsBefore(t, round)
  }

  ghost predicate Called(t: Turn, init: nat, round: nat, messages: seq<Message>, tokens: Option<nat>,
                         prompts: seq<seq<Message>>, budgets: seq<nat>, drains: seq<nat>) {
    && LoopOk(t, round, messages, prompts) && Folded(t, drains, prompts, messages)
    && |budgets| == round && BudgetsOk(t, init, budgets)
    && Effective(tokens, t.defaultTokens) == Budget(init, Truncations(t, round))
  }

  ghost predicate Went(t: Turn, init: nat, round: nat) {
    forall k :: 0 <= k < round ==> GoesOn(t, init, k)
  }

  // And when there is no round left.
  ghost predicate Spent(t: Turn, round: nat, prompts: seq<seq<Message>>, drains: seq<nat>) {
    0 < round == t.maxRounds ==> Served(t, drains, prompts)
  }

  // What holds when the turn is over.
  ghost predicate Over(t: Turn, init: nat, outcome: Outcome, prompts: seq<seq<Message>>, budgets: seq<nat>,
          drains: seq<nat>)
    requires 1 <= t.maxRounds
  {
    && |budgets| == |prompts| && PromptsOk(prompts) && Served(t, drains, prompts)
    && BudgetsOk(t, init, budgets) && EndsRight(t, init, outcome, |prompts|)
  }

  // A response without tool calls: a draft that is dropped if and only if a round is
  // left and something arrived.
  method Draft(t: Turn, ghost init: nat, round: nat, so: seq<Message>, tokens: Option<nat>, prompts: seq<seq<Message>>,
               ghost budgets: seq<nat>, drainsBefore: seq<nat>)
    returns (next: Option<Outcome>, messages: seq<Message>, drains: seq<nat>)
    requires round < t.maxRounds && Called(t, init, round + 1, so, tokens, prompts, budgets, drainsBefore)
    requires Served(t, drainsBefore, prompts) && IsDraft(t, round) && |drainsBefore| == DrainsBefore(t, round) + 1
    ensures next == None <==> Discarded(t, round)
    ensures next.Some? ==> next.value == Answered(round, t.respond(round).value.text) && Served(t, drains, prompts)
    ensures next == None ==> Called(t, init, round + 1, messages, tokens, prompts, budgets, drains)
    ensures next == None ==> messages == so + UserMessages(t.arrived(DrainsBefore(t, round) + 1))
    ensures |drains| == DrainsBefore(t, round + 1) && (next == None ==> round + 1 < t.maxRounds)
  {
    messages, drains := so, drainsBefore;
    if round < t.maxRounds - 1 {
      FoldOk(t, round + 1, messages, prompts, drains);
      var arrived := UserMessages(t.arrived(|drains|));
      drains := drains + [round + 1];
      if arrived != [] {
        messages := messages + arrived;
        return None, messages, drains;
      }
      assert t.arrived(|drains| - 1) == [];
    }
    next := Some(Answered(round, t.respond(round).value.text));
  }

  method ToolCalls(t: Turn, ghost added: nat -> seq<Message>, ghost memory: nat -> ToolRound.Asking, ghost init: nat, round: nat, agent: ToolRound.Agent, so: seq<Message>,
                   ghost tokens: Option<nat>, ghost prompts: seq<seq<Message>>, ghost budgets: seq<nat>, ghost drains: seq<nat>)
    returns (messages: seq<Message>)
    requires Called(t, init, round + 1, so, tokens, prompts, budgets, drains) && Served(t, drains, prompts)
    requires RanTools(t, round) && ReactsAt(t, added, memory, round) && agent.View() == memory(round)
    modifies agent
    ensures Called(t, init, round + 1, messages, tokens, prompts, budgets, drains)
    ensures messages == so + added(round) && agent.View() == memory(round + 1)
  {
    var response := t.respond(round).value;
    ghost var st := agent.View();
    var results, _ := agent.ExecuteRound(t.world(round), response.calls);
    RoundOk(t, round + 1, so, prompts, t.world(round), response.calls, st, response.text);
    messages := so + [Assistant(response.text, ToolRound.Requests(response.calls), None)] + results;
    Assoc(so, [Assistant(response.text, ToolRound.Requests(response.calls), None)], results);
    ServedFolded(t, messages, prompts, drains);
  }

  // The budget after a response; None exactly when it is a truncated text at or above
  // the ceiling.
  method NextTokens(t: Turn, ghost init: nat, round: nat, tokens: Option<nat>) returns (next: Option<Option<nat>>)
    requires t.respond(round).Some? && Effective(tokens, t.defaultTokens) == Budget(init, Truncations(t, round))
    ensures next.Some? ==> Effective(next.value, t.defaultTokens) == Budget(init, Truncations(t, round + 1))
    ensures next == None <==>
      t.respond(round).value.stop == MaxTokens && t.respond(round).value.calls == [] && !Retried(t, init, round)
  {
    var response, effective := t.respond(round).value, Effective(tokens, t.defaultTokens);
    BudgetRaise(init, Truncations(t, round));
    if response.stop != MaxTokens {
      return Some(tokens);
    }
    if response.calls == [] {
      return if effective < MAX_TOKENS_CEILING then Some(Some(Doubled(effective))) else None;
    }
    next := Some(Some(Max(effective, Doubled(effective))));
  }

  // Drains the inbox and makes a call.
  method Call(t: Turn, ghost added: nat -> seq<Message>, ghost initial: seq<Message>, ghost init: nat, round: nat,
              so: seq<Message>, tokens: Option<nat>, promptsBefore: seq<seq<Message>>, budgetsBefore: seq<nat>, drainsBefore: seq<nat>)
    returns (messages: seq<Message>, prompts: seq<seq<Message>>, budgets: seq<nat>, drains: seq<nat>)
    requires round < t.maxRounds && Called(t, init, round, so, tokens, promptsBefore, budgetsBefore, drainsBefore)
    requires |drainsBefore| == DrainsBefore(t, round)
    requires PromptsAre(t, added, initial, promptsBefore) && so == Carried(added, initial, promptsBefore, round)
    ensures LoopOk(t, round + 1, messages, prompts) && Served(t, drains, prompts)
    ensures |budgets| == round + 1 && BudgetsOk(t, init, budgets) && |drains| == DrainsBefore(t, round) + 1
    ensures PromptsAre(t, added, initial, prompts) && prompts[round] == messages
  {
    FoldOk(t, round, so, promptsBefore, drainsBefore);
    messages, drains := so + UserMessages(t.arrived(|drainsBefore|)), drainsBefore + [round];
    CallOk(t, round, messages, promptsBefore, drains);
    prompts, budgets := promptsBefore + [messages], budgetsBefore + [Effective(tokens, t.defaultTokens)];
    OneMorePrompt(t, added, initial, promptsBefore, messages);
  }

  method Round(t: Turn, ghost added: nat -> seq<Message>, ghost memory: nat -> ToolRound.Asking, ghost initial: seq<Message>, ghost init: nat, round: nat,
               agent: ToolRound.Agent, so: seq<Message>, tokensBefore: Option<nat>,
               promptsBefore: seq<seq<Message>>, budgetsBefore: seq<nat>, drainsBefore: seq<nat>)
    returns (next: Option<Outcome>, messages: seq<Message>, tokens: Option<nat>, prompts: seq<seq<Message>>,
             budgets: seq<nat>, drains: seq<nat>)
    requires round < t.maxRounds && Going(t, init, round, so, tokensBefore, promptsBefore, budgetsBefore, drainsBefore)
    requires PromptsAre(t, added, initial, promptsBefore) && so == Carried(added, initial, promptsBefore, round)
    requires agent.View() == memory(round) && Reacts(t, added, memory)
    modifies agent
    ensures next == None ==> Going(t, init, round + 1, messages, tokens, prompts, budgets, drains)
    ensures next == None ==> Spent(t, round + 1, prompts, drains)
    ensures next.Some? ==> Over(t, init, next.value, prompts, budgets, drains)
    ensures |prompts| == round + 1 && PromptsAre(t, added, initial, prompts)
    ensures next == None ==> messages == Carried(added, initial, prompts, round + 1)
    ensures next == None ==> agent.View() == memory(round + 1)
    ensures |drains| == DrainsBefore(t, round + 1)
  {
    messages, prompts, budgets, drains := Call(t, added, initial, init, round, so, tokensBefore, promptsBefore, budgetsBefore, drainsBefore);
    next, messages, tokens, drains := Respond(t, added, memory, init, round, agent, messages, tokensBefore, prompts, budgets, drains);
  }

  // What the loop does with the response of a round.
  method Respond(t: Turn, ghost added: nat -> seq<Message>, ghost memory: nat -> ToolRound.Asking, ghost init: nat, round: nat, agent: ToolRound.Agent,
                 so: seq<Message>, tokensBefore: Option<nat>, prompts: seq<seq<Message>>, ghost budgets: seq<nat>, drainsBefore: seq<nat>)
    returns (next: Option<Outcome>, messages: seq<Message>, tokens: Option<nat>, drains: seq<nat>)
    requires round < t.maxRounds && LoopOk(t, round + 1, so, prompts) && Served(t, drainsBefore, prompts)
    requires |budgets| == round + 1 && BudgetsOk(t, init, budgets) && Went(t, init, round)
    requires Effective(tokensBefore, t.defaultTokens) == Budget(init, Truncations(t, round))
    requires |drainsBefore| == DrainsBefore(t, round) + 1 && agent.View() == memory(round) && Reacts(t, added, memory)
    modifies agent
    ensures next == None <==> GoesOn(t, init, round)
    ensures next == None ==> Going(t, init, round + 1, messages, tokens, prompts, budgets, drains)
    ensures next == None ==> Spent(t, round + 1, prompts, drains)
    ensures next.Some? ==> Over(t, init, next.value, prompts, budgets, drains)
    ensures next == None ==> messages == so + added(round) && agent.View() == memory(round + 1)
    ensures |drains| == DrainsBefore(t, round + 1)
  {
    messages, tokens, drains, next := so, tokensBefore, drainsBefore, Some(Aborted);
    ServedFolded(t, so, prompts, drains);
    var answer := t.respond(round);
    if answer == None {
      next := Some(Raised);
      return;
    }
    var response := answer.value;
    if !Valid(response.stop) {
      return;
    }
    var raised := NextTokens(t, init, round, tokensBefore);
    if raised == None {
      return;
    }
    tokens, next := raised.value, None;
    assert ReactsAt(t, added, memory, round);
    assert so + [] == so;
    if response.calls != [] {
      messages := ToolCalls(t, added, memory, init, round, agent, messages, tokens, prompts, budgets, drains);
    } else if response.stop != MaxTokens {
      next, messages, drains := Draft(t, init, round, messages, tokens, prompts, budgets, drains);
    }
  }

  /**
   The loop.  At most maxRounds LLM calls and one more to wrap up are made; every
   prompt can be sent; a message that arrives during the turn is in the prompt of
   the next call; and the reply is never older than the last message folded in.
   */
  method Process(t: Turn, agent: ToolRound.Agent, initial: seq<Message>, maxTokens: Option<nat>)
    returns (outcome: Outcome, prompts: seq<seq<Message>>, budgets: seq<nat>, drains: seq<nat>)
    requires WellFormed(initial) && 1 <= t.maxRounds
    modifies agent
    ensures |prompts| <= t.maxRounds + 1 && |budgets| == |prompts|
    ensures PromptsOk(prompts)
    ensures Served(t, drains, prompts)
    ensures BudgetsOk(t, Effective(maxTokens, t.defaultTokens), budgets)
    ensures EndsRight(t, Effective(maxTokens, t.defaultTokens), outcome, |prompts|)
    ensures PromptsAre(t, Reactions(t, old(agent.View())), initial, prompts)
    ensures |drains| == DrainsBefore(t, if |prompts| < t.maxRounds then |prompts| else t.maxRounds)
  {
    ghost var added, memory := Reactions(t, agent.View()), Memories(t, agent.View());
    ReactionsReact(t, agent.View());
    var messages, tokens := initial, maxTokens;
    prompts, budgets, drains := [], [], [];
    ghost var init := Effective(maxTokens, t.defaultTokens);
    BudgetStart(init);
    for round := 0 to t.maxRounds
      invariant Going(t, init, round, messages, tokens, prompts, budgets, drains) && Spent(t, round, prompts, drains)
      invariant PromptsAre(t, added, initial, prompts) && messages == Carried(added, initial, prompts, round)
      invariant agent.View() == memory(round)
    {
      var next;
      next, messages, tokens, prompts, budgets, drains :=
        Round(t, added, memory, initial, init, round, agent, messages, tokens, prompts, budgets, drains);
      if next.Some? {
        return next.value, prompts, budgets, drains;
      }
    }
    outcome, prompts, budgets := AfterLastRound(t, added, initial, messages, tokens, prompts, budgets, drains, init);
  }

  method AfterLastRound(t: Turn, ghost added: nat -> seq<Message>, ghost initial: seq<Message>, messages: seq<Message>,
                        tokens: Option<nat>, before: seq<seq<Message>>, budgetsBefore: seq<nat>, ghost drains: seq<nat>, ghost init: nat)
    returns (outcome: Outcome, prompts: seq<seq<Message>>, budgets: seq<nat>)
    requires 1 <= t.maxRounds && LoopOk(t, t.maxRounds, messages, before) && Served(t, drains, before)
    requires |budgetsBefore| == |before| && BudgetsOk(t, init, budgetsBefore)
    requires Effective(tokens, t.defaultTokens) == Budget(init, Truncations(t, t.maxRounds))
    requires Went(t, init, t.maxRounds)
    requires PromptsAre(t, added, initial, before) && messages == Carried(added, initial, before, t.maxRounds)
    ensures PromptsAre(t, added, initial, prompts)
    ensures before <= prompts && |budgets| == |prompts|
    ensures PromptsOk(prompts) && Served(t, drains, prompts)
    ensures BudgetsOk(t, init, budgets) && OutOfRounds(t, outcome, |prompts|)
  {
    prompts, budgets := before, budgetsBefore;
    assert GoesOn(t, init, t.maxRounds - 1);
    var last := t.respond(t.maxRounds - 1).value;
    if last.calls == [] && last.stop == MaxTokens {
      return Aborted, prompts, budgets;
    }
    if !t.wrapUp || last.text != "" || t.alreadyReplied {
      return Answered(t.maxRounds - 1, last.text), prompts, budgets;
    }
    WrapUpOk(t, messages, before, drains);
    OneMorePrompt(t, added, initial, before, messages + [User(t.instruction, None)]);
    prompts := prompts + [messages + [User(t.instruction, None)]];
    budgets := budgets + [Effective(tokens, t.defaultTokens)];
    var answer := t.respond(t.maxRounds);
    if answer.Some? && Valid(answer.value.stop) && answer.value.stop != MaxTokens && answer.value.text != "" {
      return Answered(t.maxRounds, answer.value.text), prompts, budgets;
    }
    outcome := Canned;
  }

  lemma WrapUpOk(t: Turn, messages: seq<Message>, prompts: seq<seq<Message>>, drains: seq<nat>)
    requires LoopOk(t, t.maxRounds, messages, prompts) && Served(t, drains, prompts)
    ensures var more := prompts + [messages + [User(t.instruction, None)]]; PromptsOk(more) && Served(t, drains, more)
  {
    PlainPaired(User(t.instruction, None));
    AppendWellFormed(messages, [User(t.instruction, None)]);
  }

  // ---- What follows for a turn -------------------------------------------------------

  lemma {:induction false} PromptsGrow(prompts: seq<seq<Message>>, i: nat, k: nat)
    requires PromptsOk(prompts) && i <= k < |prompts|
    ensures prompts[i] <= prompts[k]
    decreases k
  {
    if i < k {
      PromptsGrow(prompts, i, k - 1);
    }
  }

  // The text that is sent answers a prompt with every message that was folded in.
  lemma ReplySawEveryMessage(t: Turn, init: nat, outcome: Outcome, prompts: seq<seq<Message>>, drains: seq<nat>, j: nat)
    requires PromptsOk(prompts) && Served(t, drains, prompts)
    requires 1 <= t.maxRounds && EndsRight(t, init, outcome, |prompts|) && outcome.Answered? && j < |drains|
    ensures outcome.call < |prompts| && AllIn(t.arrived(j), prompts[outcome.call])
  {
    EndsOk(t, init, outcome, |prompts|);
    if t.arrived(j) != [] {
      PromptsGrow(prompts, drains[j], outcome.call);
      var early, late := prompts[drains[j]], prompts[outcome.call];
      forall m | m in UserMessages(t.arrived(j)) ensures m in late {
        var i :| 0 <= i < |early| && early[i] == m;
        assert late[i] == m;
      }
    }
  }

  // The calls as the model made them, and one result for each.
  ghost predicate RoundShape(text: string, calls: seq<ToolRound.Parsed>, ms: seq<Message>, requests: seq<ToolCall>, results: seq<Message>) {
    && ms == [Assistant(text, requests, None)] + results && |requests| == |calls|
    && (forall i :: 0 <= i < |calls| ==>
          requests[i] == ToolCall(calls[i].id, calls[i].name, if calls[i].arguments.Some? then calls[i].arguments.value else "{}"))
    && (forall i :: 0 <= i < |results| ==> results[i].ToolResult?)
    && multiset(ResultIds(results)) == multiset(CallIds(requests))
  }

  lemma RoundMessagesAre(t: Turn, st: ToolRound.Asking, k: nat) returns (requests: seq<ToolCall>, results: seq<Message>)
    requires RanTools(t, k)
    ensures RoundShape(t.respond(k).value.text, t.respond(k).value.calls, RoundMessages(t, st, k), requests, results)
    ensures results == ToolRound.Rendered(t.world(k), t.respond(k).value.calls, ToolRound.Fates(t.world(k), t.respond(k).value.calls, st))
  {
    var w, calls := t.world(k), t.respond(k).value.calls;
    requests, results := ToolRound.Requests(calls), ToolRound.Rendered(w, calls, ToolRound.Fates(w, calls, st));
    ToolRound.RequestsAre(calls);
    ToolRound.OneResultPerCall(w, calls, st);
    LeadingAll(results);
  }

  // What a prompt is after a response with tool calls: the one before it, the calls as
  // the model made them, one result for each, and what arrived meanwhile or, when no
  // round is left, the instruction to wrap up.
  lemma PromptAfterTools(t: Turn, st: ToolRound.Asking, initial: seq<Message>, prompts: seq<seq<Message>>, k: nat)
    returns (round: seq<Message>, requests: seq<ToolCall>, results: seq<Message>)
    requires PromptsAre(t, Reactions(t, st), initial, prompts) && k + 1 < |prompts| && RanTools(t, k)
    ensures prompts[k + 1] == prompts[k] + round +
      (if k + 1 < t.maxRounds then UserMessages(t.arrived(DrainsBefore(t, k + 1))) else [User(t.instruction, None)])
    ensures RoundShape(t.respond(k).value.text, t.respond(k).value.calls, round, requests, results)
  {
    round := RoundMessages(t, Memory(t, st, k), k);
    requests, results := RoundMessagesAre(t, Memory(t, st, k), k);
    assert PromptIs(t, Reactions(t, st), initial, prompts, k + 1);
    assert Reactions(t, st)(k) == round;
  }

  // The messages that arrived, each as one message of the user with its row's number.
  lemma {:induction false} ArrivalsAre(xs: seq<(string, nat)>)
    ensures |UserMessages(xs)| == |xs| && forall i :: 0 <= i < |xs| ==> UserMessages(xs)[i] == User(xs[i].0, Some(xs[i].1))
  {
    if xs != [] {
      ArrivalsAre(xs[..|xs| - 1]);
    }
  }

  lemma {:induction false} LeadingAll(ms: seq<Message>)
    requires Leading(ms) == |ms|
    ensures forall i :: 0 <= i < |ms| ==> ms[i].ToolResult?
  {
    if ms != [] {
      LeadingAll(ms[1..]);
    }
  }

  // After a retry, a dropped draft or at the start only arrivals are added.
  lemma PromptWithoutTools(t: Turn, init: nat, st: ToolRound.Asking, initial: seq<Message>, prompts: seq<seq<Message>>, k: nat)
    requires PromptsAre(t, Reactions(t, st), initial, prompts) && k < |prompts| && k < t.maxRounds
    requires k > 0 ==> Retried(t, init, k - 1) || Discarded(t, k - 1)
    ensures k == 0 ==> prompts[0] == initial + UserMessages(t.arrived(0))
    ensures k > 0 && Retried(t, init, k - 1) ==> prompts[k] == prompts[k - 1] + UserMessages(t.arrived(DrainsBefore(t, k)))
    ensures k > 0 && Discarded(t, k - 1) ==>
      && t.arrived(DrainsBefore(t, k) - 1) != []
      && prompts[k] == prompts[k - 1] + UserMessages(t.arrived(DrainsBefore(t, k) - 1)) + UserMessages(t.arrived(DrainsBefore(t, k)))
  {
    assert PromptIs(t, Reactions(t, st), initial, prompts, k);
    if k > 0 {
      assert prompts[k - 1] + [] == prompts[k - 1];
    }
  }

  // Every request of a turn is one the API accepts.
  lemma EveryRequestPaired(prompts: seq<seq<Message>>, k: nat)
    requires PromptsOk(prompts) && k < |prompts|
    ensures ApiPaired(Api(prompts[k]))
  {
    WellFormedRequest(prompts[k]);
  }

  // What a turn starts with: the system prompt, rendered history, the current message.
  lemma HistoryWellFormed(rd: H.Reader, c: H.Carry, rows: seq<H.Row>, system: string, current: string)
    ensures WellFormed([System(system)] + rd.Converted(c, rows) + [User(current, None)])
  {
    var history := rd.Converted(c, rows);
    rd.ConvertedPaired(c, rows);
    ConvertedNoSystem(rd, c, rows);
    PlainPaired(User(current, None));
    assert ([System(system)] + history)[1..] == history;
    AppendWellFormed([System(system)] + history, [User(current, None)]);
  }

  lemma {:induction false} ResultsNoSystem(rd: H.Reader, tools: seq<H.Interaction>)
    ensures NoSystem(rd.Results(tools))
  {
    if tools != [] {
      ResultsNoSystem(rd, tools[..|tools| - 1]);
    }
  }

  lemma {:induction false} ConvertedNoSystem(rd: H.Reader, c: H.Carry, rows: seq<H.Row>)
    ensures NoSystem(rd.Converted(c, rows))
  {
    if rows != [] {
      var init, last := rows[..|rows| - 1], rows[|rows| - 1];
      ConvertedNoSystem(rd, c, init);
      ResultsNoSystem(rd, last.tools);
      assert NoSystem(rd.Emitted(rd.CarryAfter(c, init), last));
    }
  }

  // The budget never exceeds the ceiling unless it started there, and 14 truncations
  // reach it.
  lemma BudgetBounded(init: nat, j: nat)
    ensures init <= Budget(init, j) || init == 0
    ensures Budget(init, j) <= Max(init, MAX_TOKENS_CEILING)
    ensures 1 <= init && 14 <= j ==> Budget(init, j) == Max(init, MAX_TOKENS_CEILING)
  {
    Pow2Grows(0, j);
    if 14 <= j {
      Pow2Grows(14, j);
      assert Pow2(14) == 16384;
    }
    assert Pow2(j) >= 1;
    assert init * Pow2(j) >= init by {
      MulGrows(init, Pow2(j));
    }
    assert init >= 1 ==> init * Pow2(j) >= Pow2(j) by {
      if init >= 1 {
        MulGrows(Pow2(j), init);
      }
    }
  }

  lemma MulGrows(a: nat, b: nat)
    requires 1 <= b
    ensures a <= a * b == b * a
  {
  }

  lemma {:induction false} Pow2Grows(i: nat, j: nat)
    requires i <= j
    ensures 1 <= Pow2(i) <= Pow2(j)
    decreases j
  {
    if i < j {
      Pow2Grows(i, j - 1);
    } else if i > 0 {
      Pow2Grows(i - 1, j - 1);
    }
  }

  lemma SuffixNoSystem(ms: seq<Message>, front: seq<Message>, back: seq<Message>)
    requires NoSystem(ms) && ms == front + back
    ensures NoSystem(back)
  {
    forall i | 0 <= i < |back| ensures !back[i].System? {
      assert ms[|front| + i] == back[i];
    }
  }

  lemma {:induction false} NoteNoSystem(body: seq<Message>, note: string)
    requires NoSystem(body)
    ensures NoSystem(T.NoteOnNewest(body, note))
  {
    if body != [] {
      NoteNoSystem(body[..|body| - 1], note);
    }
  }

  // A trim leaves a well-formed prompt well formed, with its note or without.
  lemma TrimmedWellFormed(system: Message, body: seq<Message>, k: nat, note: string)
    requires WellFormed([system] + body) && k <= |T.Blocks(body)|
    ensures WellFormed([system] + T.Flat(T.Blocks(body)[k..]))
    ensures WellFormed(T.Attached(system, T.Flat(T.Blocks(body)[k..]), note))
  {
    var kept := T.Flat(T.Blocks(body)[k..]);
    assert ([system] + body)[1..] == body && ([system] + body)[0] == system;
    T.FlatBlocks(body);
    T.FlatSplit(T.Blocks(body), k);
    SuffixNoSystem(body, T.Flat(T.Blocks(body)[..k]), kept);
    T.TrimKeepsPairs(system, body, k, note);
    NoteNoSystem(kept, note);
    HeadedWellFormed(system, kept);
    HeadedWellFormed(system, T.WithNote(kept, note));
  }

  lemma HeadedWellFormed(system: Message, body: seq<Message>)
    requires system.System? && NoSystem(body) && Paired([system] + body)
    ensures WellFormed([system] + body)
  {
    PairedCons(system, body);
    assert ([system] + body)[1..] == body;
  }
}
