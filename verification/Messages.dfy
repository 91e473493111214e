/**
 The message types of the agent loop and their serialization for the LLM API.

 Consecutive tool results are merged into one user message.  `Api` says what the
 serialized list is; `Serialize` is the loop that fills it through a buffer of
 pending results.
 */
module Messages {

  datatype Option<+T> = None | Some(value: T)

  datatype ToolCall = ToolCall(id: string, name: string, arguments: string)

  // seqNo is the number of the stored row a message was loaded from, if any.
  datatype Message =
    | System(content: string)
    | User(content: string, seqNo: Option<nat>)
    | Assistant(content: string, calls: seq<ToolCall>, seqNo: Option<nat>)
    | ToolResult(callId: string, content: string, isError: bool)

  datatype Block =
    | Text(text: string)
    | ToolUse(id: string, name: string, input: string)
    | Result(id: string, content: string, isError: bool)

  datatype ApiMessage =
    | UserText(content: string)
    | UserResults(blocks: seq<Block>)
    | AssistantBlocks(blocks: seq<Block>)

  function Uses(calls: seq<ToolCall>): seq<Block> {
    if calls == [] then []
    else Uses(calls[..|calls| - 1]) + [ToolUse(calls[|calls| - 1].id, calls[|calls| - 1].name, calls[|calls| - 1].arguments)]
  }

  function ResultBlocks(ms: seq<Message>): seq<Block> {
    if ms == [] then []
    else
      var m := ms[|ms| - 1];
      ResultBlocks(ms[..|ms| - 1]) + (if m.ToolResult? then [Result(m.callId, m.content, m.isError)] else [])
  }

  // A user or assistant message on its own.
  function Single(m: Message): ApiMessage
    requires m.User? || m.Assistant?
  {
    if m.User? then UserText(m.content)
    else AssistantBlocks((if m.content != "" then [Text(m.content)] else []) + Uses(m.calls))
  }

  function NonSystem(ms: seq<Message>): seq<Message> {
    if ms == [] then []
    else NonSystem(ms[..|ms| - 1]) + (if ms[|ms| - 1].System? then [] else [ms[|ms| - 1]])
  }

  // How many tool results the list starts with.
  function Leading(ms: seq<Message>): (k: nat)
    ensures k <= |ms|
    ensures forall i :: 0 <= i < k ==> ms[i].ToolResult?
    ensures k < |ms| ==> !ms[k].ToolResult?
  {
    if ms == [] || !ms[0].ToolResult? then 0 else 1 + Leading(ms[1..])
  }

  // The messages at the front that are serialized together: a maximal run of
  // tool results, or one message of another kind.
  function Width(ms: seq<Message>): (w: nat)
    requires ms != []
    ensures 1 <= w <= |ms|
  {
    if ms[0].ToolResult? then Leading(ms) else 1
  }

  function Head(ms: seq<Message>): seq<ApiMessage>
    requires ms != []
  {
    match ms[0]
    case System(_) => []
    case ToolResult(_, _, _) => [UserResults(ResultBlocks(ms[..Width(ms)]))]
    case _ => [Single(ms[0])]
  }

  function Runs(ms: seq<Message>): seq<ApiMessage>
    decreases |ms|
  {
    if ms == [] then [] else Head(ms) + Runs(ms[Width(ms)..])
  }

  // System messages do not interrupt a run.
  function Api(ms: seq<Message>): seq<ApiMessage> {
    Runs(NonSystem(ms))
  }

  // The system prompt is the content of the last system message.
  function SystemOf(ms: seq<Message>): Option<string> {
    if ms == [] then None
    else if ms[|ms| - 1].System? then Some(ms[|ms| - 1].content)
    else SystemOf(ms[..|ms| - 1])
  }

  lemma {:induction false} LeadingPrefix(ms: seq<Message>, more: seq<Message>)
    ensures Leading(ms) < |ms| ==> Leading(ms + more) == Leading(ms)
    ensures Leading(ms) == |ms| ==> Leading(ms + more) == |ms| + Leading(more)
  {
    if ms == [] {
      assert ms + more == more;
    } else if ms[0].ToolResult? {
      assert (ms + more)[1..] == ms[1..] + more;
      LeadingPrefix(ms[1..], more);
    }
  }

  // Serialization does not look across a message that is not a tool result.
  lemma {:induction false} RunsSplit(a: seq<Message>, b: seq<Message>)
    requires (a != [] && a[|a| - 1].ToolResult?) ==> Leading(b) == 0
    ensures Runs(a + b) == Runs(a) + Runs(b)
    decreases |a|
  {
    if a == [] {
      assert a + b == b;
    } else {
      var w := Width(a);
      LeadingPrefix(a, b);
      assert Width(a + b) == w && (a + b)[..w] == a[..w];
      var rest := a[w..];
      assert (a + b)[w..] == rest + b;
      assert rest != [] ==> rest[|rest| - 1] == a[|a| - 1];
      RunsSplit(rest, b);
      Assoc(Head(a), Runs(rest), Runs(b));
    }
  }

  lemma Assoc<T>(a: seq<T>, b: seq<T>, c: seq<T>)
    ensures a + (b + c) == (a + b) + c
  {
  }

  lemma RunsOfResults(ms: seq<Message>)
    requires Leading(ms) == |ms|
    ensures Runs(ms) == if ms == [] then [] else [UserResults(ResultBlocks(ms))]
  {
    if ms != [] {
      assert ms[..|ms|] == ms;
    }
  }

  // The buffer flushed: what the pending results become.
  function Flush(pending: seq<Block>): seq<ApiMessage> {
    if pending == [] then [] else [UserResults(pending)]
  }

  lemma ResultBlocksLength(ms: seq<Message>)
    requires Leading(ms) == |ms|
    ensures |ResultBlocks(ms)| == |ms|
  {
    if ms != [] {
      var init := ms[..|ms| - 1];
      LeadingPrefix(init, [ms[|ms| - 1]]);
      assert ms == init + [ms[|ms| - 1]];
      ResultBlocksLength(init);
    }
  }

  lemma RunsFlushed(done: seq<Message>, run: seq<Message>)
    requires Leading(run) == |run| && (done == [] || !done[|done| - 1].ToolResult?)
    ensures Runs(done + run) == Runs(done) + Flush(ResultBlocks(run))
  {
    RunsSplit(done, run);
    RunsOfResults(run);
    ResultBlocksLength(run);
  }

  lemma RunsThen(ms: seq<Message>, m: Message)
    requires m.User? || m.Assistant?
    ensures Runs(ms + [m]) == Runs(ms) + [Single(m)]
  {
    RunsSplit(ms, [m]);
    assert Runs([m]) == [Single(m)];
  }

  lemma RunGrows(run: seq<Message>, m: Message)
    requires Leading(run) == |run| && m.ToolResult?
    ensures Leading(run + [m]) == |run + [m]|
    ensures ResultBlocks(run + [m]) == ResultBlocks(run) + [Result(m.callId, m.content, m.isError)]
  {
    LeadingPrefix(run, [m]);
    assert (run + [m])[..|run|] == run;
  }

  method FlushPending(result: seq<ApiMessage>, pending: seq<Block>) returns (flushed: seq<ApiMessage>)
    ensures flushed == result + Flush(pending)
  {
    flushed := result;
    if pending != [] {
      flushed := flushed + [UserResults(pending)];
    }
  }

  // The loop's state: done is serialized, run is in the buffer.
  ghost predicate Buffered(done: seq<Message>, run: seq<Message>, result: seq<ApiMessage>, pending: seq<Block>) {
    && result == Runs(done) && pending == ResultBlocks(run)
    && Leading(run) == |run| && (done == [] || !done[|done| - 1].ToolResult?)
  }

  method Add(m: Message, result: seq<ApiMessage>, pending: seq<Block>, ghost done: seq<Message>,
          ghost run: seq<Message>)
    returns (result': seq<ApiMessage>, pending': seq<Block>, ghost done': seq<Message>, ghost run': seq<Message>)
    requires Buffered(done, run, result, pending) && !m.System?
    ensures Buffered(done', run', result', pending') && done' + run' == (done + run) + [m]
  {
    if m.ToolResult? {
      RunGrows(run, m);
      result', pending' := result, pending + [Result(m.callId, m.content, m.isError)];
      done', run' := done, run + [m];
    } else {
      RunsFlushed(done, run);
      RunsThen(done + run, m);
      result' := FlushPending(result, pending);
      result', pending' := result' + [Single(m)], [];
      done', run' := (done + run) + [m], [];
    }
  }

  method Serialize(messages: seq<Message>) returns (system: Option<string>, result: seq<ApiMessage>)
    ensures result == Api(messages)
    ensures system == SystemOf(messages)
  {
    system, result := None, [];
    var pending: seq<Block> := [];
    ghost var done, run: seq<Message> := [], [];
    for i := 0 to |messages|
      invariant NonSystem(messages[..i]) == done + run && SystemOf(messages[..i]) == system
      invariant Buffered(done, run, result, pending)
    {
      assert messages[..i + 1][..i] == messages[..i];
      if messages[i].System? {
        system := Some(messages[i].content);
      } else {
        result, pending, done, run := Add(messages[i], result, pending, done, run);
      }
    }
    assert messages[..|messages|] == messages;
    RunsFlushed(done, run);
    result := FlushPending(result, pending);
  }

  // ---- Calls and results -------------------------------------------------------

  function CallIds(calls: seq<ToolCall>): seq<string> {
    if calls == [] then [] else CallIds(calls[..|calls| - 1]) + [calls[|calls| - 1].id]
  }

  function ResultIds(ms: seq<Message>): seq<string> {
    if ms == [] then []
    else ResultIds(ms[..|ms| - 1]) + (if ms[|ms| - 1].ToolResult? then [ms[|ms| - 1].callId] else [])
  }

  predicate Calls(m: Message) {
    m.Assistant? && m.calls != []
  }

  // An assistant message with tool calls is followed at once by results for
  // exactly those calls, and results stand nowhere else.
  ghost predicate Paired(ms: seq<Message>)
    decreases |ms|
  {
    ms == [] ||
    if Calls(ms[0]) then
      var k := Leading(ms[1..]);
      multiset(ResultIds(ms[1..][..k])) == multiset(CallIds(ms[0].calls)) && Paired(ms[1..][k..])
    else !ms[0].ToolResult? && Paired(ms[1..])
  }

  function UseIds(m: ApiMessage): seq<string> {
    if m.AssistantBlocks? then BlockIds(m.blocks, true) else []
  }

  function AnswerIds(m: ApiMessage): seq<string> {
    if m.UserResults? then BlockIds(m.blocks, false) else []
  }

  function BlockIds(bs: seq<Block>, uses: bool): seq<string> {
    if bs == [] then []
    else
      var b := bs[|bs| - 1];
      BlockIds(bs[..|bs| - 1], uses) +
        (if uses && b.ToolUse? then [b.id] else if !uses && b.Result? then [b.id] else [])
  }

  // What the LLM API demands of a request.
  ghost predicate ApiPaired(api: seq<ApiMessage>) {
    && (forall i :: 0 <= i < |api| && UseIds(api[i]) != [] ==>
          i + 1 < |api| && api[i + 1].UserResults? && multiset(AnswerIds(api[i + 1])) == multiset(UseIds(api[i])))
    && (forall i :: 0 <= i < |api| && api[i].UserResults? ==> 0 < i && UseIds(api[i - 1]) != [])
  }

  lemma {:induction false} UsesIds(calls: seq<ToolCall>, text: seq<Block>)
    requires BlockIds(text, true) == []
    ensures BlockIds(text + Uses(calls), true) == CallIds(calls)
  {
    if calls == [] {
      assert text + Uses(calls) == text;
    } else {
      var init := calls[..|calls| - 1];
      UsesIds(init, text);
      assert (text + Uses(calls))[..|text + Uses(calls)| - 1] == text + Uses(init);
    }
  }

  lemma SingleIds(m: Message)
    requires m.User? || m.Assistant?
    ensures UseIds(Single(m)) == if m.Assistant? then CallIds(m.calls) else []
  {
    if m.Assistant? {
      UsesIds(m.calls, if m.content != "" then [Text(m.content)] else []);
    }
  }

  lemma {:induction false} AnswersIds(ms: seq<Message>)
    ensures BlockIds(ResultBlocks(ms), false) == ResultIds(ms)
  {
    if ms != [] {
      var init, bs := ms[..|ms| - 1], ResultBlocks(ms);
      AnswersIds(init);
      assert bs[..|ResultBlocks(init)|] == ResultBlocks(init);
      if !ms[|ms| - 1].ToolResult? {
        assert bs == ResultBlocks(init) && ResultIds(ms) == ResultIds(init);
      }
    }
  }

  lemma CallIdsLength(calls: seq<ToolCall>)
    ensures |CallIds(calls)| == |calls|
  {
  }

  // A message that neither calls tools nor carries results can be put in front.
  lemma ApiCons(x: ApiMessage, rest: seq<ApiMessage>)
    requires UseIds(x) == [] && !x.UserResults?
    ensures ApiPaired([x] + rest) <==> ApiPaired(rest)
  {
    var api := [x] + rest;
    assert api[0] == x;
    assert forall i :: 0 <= i < |rest| ==> api[i + 1] == rest[i];
    if ApiPaired(rest) {
      assert forall i :: 0 < i < |api| ==> api[i] == rest[i - 1];
    }
    if ApiPaired(api) {
      forall i | 0 <= i < |rest| && UseIds(rest[i]) != []
        ensures i + 1 < |rest| && rest[i + 1].UserResults? && multiset(AnswerIds(rest[i + 1])) == multiset(UseIds(rest[i]))
      {
        assert UseIds(api[i + 1]) != [];
        assert api[i + 1 + 1] == rest[i + 1];
      }
      forall i | 0 <= i < |rest| && rest[i].UserResults?
        ensures 0 < i && UseIds(rest[i - 1]) != []
      {
        assert api[i + 1].UserResults?;
      }
    }
  }

  // So can a message with calls together with its results.
  lemma ApiConsPair(x: ApiMessage, r: ApiMessage, rest: seq<ApiMessage>)
    requires UseIds(x) != [] && r.UserResults?
    ensures ApiPaired([x, r] + rest) <==> multiset(AnswerIds(r)) == multiset(UseIds(x)) && ApiPaired(rest)
  {
    var api := [x, r] + rest;
    assert api[0] == x && api[1] == r;
    if ApiPaired(rest) {
      assert forall i :: 1 < i < |api| ==> api[i] == rest[i - 2];
    }
    if ApiPaired(api) {
      ApiTail(x, r, rest);
    }
  }

  lemma ApiTail(x: ApiMessage, r: ApiMessage, rest: seq<ApiMessage>)
    requires r.UserResults? && ApiPaired([x, r] + rest)
    ensures ApiPaired(rest)
  {
    var api := [x, r] + rest;
    assert api[1] == r && forall i :: 0 <= i < |rest| ==> api[i + 2] == rest[i];
    if ApiPaired(api) {
      forall i | 0 <= i < |rest| && UseIds(rest[i]) != []
        ensures i + 1 < |rest| && rest[i + 1].UserResults? && multiset(AnswerIds(rest[i + 1])) == multiset(UseIds(rest[i]))
      {
        assert UseIds(api[i + 2]) != [];
        assert api[i + 2 + 1] == rest[i + 1];
      }
      forall i | 0 <= i < |rest| && rest[i].UserResults?
        ensures 0 < i && UseIds(rest[i - 1]) != []
      {
        assert api[i + 2].UserResults?;
      }
    }
  }

  lemma PairedCons(m: Message, rest: seq<Message>)
    ensures Calls(m) ==> (Paired([m] + rest) <==>
      multiset(ResultIds(rest[..Leading(rest)])) == multiset(CallIds(m.calls)) && Paired(rest[Leading(rest)..]))
    ensures !Calls(m) ==> (Paired([m] + rest) <==> !m.ToolResult? && Paired(rest))
  {
    assert ([m] + rest)[1..] == rest;
  }

  lemma RunsCons(m: Message, rest: seq<Message>)
    requires m.User? || m.Assistant?
    ensures Runs([m] + rest) == [Single(m)] + Runs(rest)
  {
    assert ([m] + rest)[1..] == rest;
  }

  lemma RunsLeading(ms: seq<Message>)
    requires Leading(ms) > 0
    ensures Runs(ms) == [UserResults(ResultBlocks(ms[..Leading(ms)]))] + Runs(ms[Leading(ms)..])
  {
  }

  // The serialized request meets the API's demand if and only if the messages,
  // system messages aside, are paired.
  lemma {:induction false} RunsPaired(ms: seq<Message>)
    requires forall i :: 0 <= i < |ms| ==> !ms[i].System?
    ensures ApiPaired(Runs(ms)) <==> Paired(ms)
    decreases |ms|
  {
    if ms != [] {
      var m, rest := ms[0], ms[1..];
      assert ms == [m] + rest;
      if m.ToolResult? {
        ResultFirst(m, rest);
      } else if Calls(m) {
        PairedCons(m, rest);
        RunsCons(m, rest);
        CallsPaired(m, rest);
      } else {
        RunsPaired(rest);
        PlainFirst(m, rest);
      }
    }
  }

  lemma ResultFirst(m: Message, rest: seq<Message>)
    requires m.ToolResult?
    ensures !ApiPaired(Runs([m] + rest)) && !Paired([m] + rest)
  {
    PairedCons(m, rest);
    assert Runs([m] + rest)[0].UserResults?;
  }

  lemma PlainFirst(m: Message, rest: seq<Message>)
    requires !Calls(m) && !m.ToolResult? && !m.System?
    ensures ApiPaired(Runs([m] + rest)) <==> ApiPaired(Runs(rest))
    ensures Paired([m] + rest) <==> Paired(rest)
  {
    PairedCons(m, rest);
    SingleIds(m);
    RunsCons(m, rest);
    ApiCons(Single(m), Runs(rest));
  }

  lemma CallsPaired(m: Message, rest: seq<Message>)
    requires Calls(m) && forall i :: 0 <= i < |rest| ==> !rest[i].System?
    ensures ApiPaired([Single(m)] + Runs(rest)) <==>
      multiset(ResultIds(rest[..Leading(rest)])) == multiset(CallIds(m.calls)) && Paired(rest[Leading(rest)..])
    decreases |rest|, 1
  {
    SingleIds(m);
    CallIdsLength(m.calls);
    if Leading(rest) == 0 {
      Unanswered(Single(m), rest);
      assert ResultIds(rest[..0]) == [];
      assert |multiset(CallIds(m.calls))| == |m.calls|;
    } else {
      RunsPaired(rest[Leading(rest)..]);
      Answered(Single(m), rest);
    }
  }

  lemma Answered(x: ApiMessage, rest: seq<Message>)
    requires UseIds(x) != [] && Leading(rest) > 0
    ensures ApiPaired([x] + Runs(rest)) <==>
      multiset(ResultIds(rest[..Leading(rest)])) == multiset(UseIds(x)) && ApiPaired(Runs(rest[Leading(rest)..]))
  {
    var front, after := rest[..Leading(rest)], Runs(rest[Leading(rest)..]);
    var r := UserResults(ResultBlocks(front));
    AnswersIds(front);
    RunsLeading(rest);
    Assoc([x], [r], after);
    assert [x] + [r] == [x, r];
    ApiConsPair(x, r, after);
  }

  lemma Unanswered(x: ApiMessage, rest: seq<Message>)
    requires UseIds(x) != [] && Leading(rest) == 0 && forall i :: 0 <= i < |rest| ==> !rest[i].System?
    ensures !ApiPaired([x] + Runs(rest))
  {
    assert UseIds(([x] + Runs(rest))[0]) != [];
    if rest != [] {
      assert ([x] + Runs(rest))[1] == Single(rest[0]);
    }
  }

  lemma {:induction false} NonSystemHasNone(ms: seq<Message>)
    ensures forall i :: 0 <= i < |NonSystem(ms)| ==> !NonSystem(ms)[i].System?
  {
    if ms != [] {
      NonSystemHasNone(ms[..|ms| - 1]);
    }
  }

  lemma SerializedPaired(ms: seq<Message>)
    ensures ApiPaired(Api(ms)) <==> Paired(NonSystem(ms))
  {
    NonSystemHasNone(ms);
    RunsPaired(NonSystem(ms));
  }

  lemma {:induction false} RunsApart(ms: seq<Message>)
    requires forall i :: 0 <= i < |ms| ==> !ms[i].System?
    ensures forall i :: 0 < i < |Runs(ms)| ==> !(Runs(ms)[i - 1].UserResults? && Runs(ms)[i].UserResults?)
    ensures Runs(ms) != [] && Runs(ms)[0].UserResults? ==> ms[0].ToolResult?
    decreases |ms|
  {
    if ms != [] {
      var rest := ms[Width(ms)..];
      RunsApart(rest);
      assert ms[0].ToolResult? && rest != [] ==> !rest[0].ToolResult?;
      assert Runs(ms) == Head(ms) + Runs(rest);
    }
  }

  // Serialization never emits two adjacent messages of tool results, not even for
  // results that only a system message separates.
  lemma NoAdjacentResults(ms: seq<Message>)
    ensures forall i :: 0 < i < |Api(ms)| ==> !(Api(ms)[i - 1].UserResults? && Api(ms)[i].UserResults?)
  {
    NonSystemHasNone(ms);
    RunsApart(NonSystem(ms));
  }

  // ---- Order ---------------------------------------------------------------------

  // The content of a message, piece by piece, in order.
  function Pieces(m: Message): seq<Block> {
    match m
    case System(_) => []
    case User(content, _) => [Text(content)]
    case Assistant(content, calls, _) => (if content != "" then [Text(content)] else []) + Uses(calls)
    case ToolResult(id, content, isError) => [Result(id, content, isError)]
  }

  function AllPieces(ms: seq<Message>): seq<Block> {
    if ms == [] then [] else AllPieces(ms[..|ms| - 1]) + Pieces(ms[|ms| - 1])
  }

  function ApiPieces(api: seq<ApiMessage>): seq<Block> {
    if api == [] then []
    else
      var m := api[|api| - 1];
      ApiPieces(api[..|api| - 1]) + (if m.UserText? then [Text(m.content)] else m.blocks)
  }

  lemma PiecesSnoc(ms: seq<Message>, m: Message)
    ensures AllPieces(ms + [m]) == AllPieces(ms) + Pieces(m)
  {
    assert (ms + [m])[..|ms|] == ms;
  }

  lemma PiecesStep(a: seq<Message>, init: seq<Message>, last: Message)
    requires AllPieces(a + init) == AllPieces(a) + AllPieces(init)
    ensures AllPieces(a + (init + [last])) == AllPieces(a) + AllPieces(init + [last])
  {
    PiecesSnoc(a + init, last);
    PiecesSnoc(init, last);
    Assoc(a, init, [last]);
    Assoc(AllPieces(a), AllPieces(init), Pieces(last));
  }

  lemma LastRejoin<T>(s: seq<T>)
    requires s != []
    ensures s[..|s| - 1] + [s[|s| - 1]] == s
  {
  }

  lemma {:induction false} PiecesConcat(a: seq<Message>, b: seq<Message>)
    ensures AllPieces(a + b) == AllPieces(a) + AllPieces(b)
  {
    if b == [] {
      assert a + b == a;
    } else {
      PiecesConcat(a, b[..|b| - 1]);
      PiecesStep(a, b[..|b| - 1], b[|b| - 1]);
      LastRejoin(b);
    }
  }

  lemma {:induction false} ApiPiecesConcat(a: seq<ApiMessage>, b: seq<ApiMessage>)
    ensures ApiPieces(a + b) == ApiPieces(a) + ApiPieces(b)
  {
    if b == [] {
      assert a + b == a;
    } else {
      var init, last := b[..|b| - 1], b[|b| - 1];
      ApiPiecesConcat(a, init);
      assert (a + b)[..|a + b| - 1] == a + init;
      Assoc(ApiPieces(a), ApiPieces(init), if last.UserText? then [Text(last.content)] else last.blocks);
    }
  }

  lemma {:induction false} ResultPieces(ms: seq<Message>)
    requires forall i :: 0 <= i < |ms| ==> ms[i].ToolResult?
    ensures AllPieces(ms) == ResultBlocks(ms)
  {
    if ms != [] {
      ResultPieces(ms[..|ms| - 1]);
    }
  }

  lemma HeadPieces(ms: seq<Message>)
    requires ms != []
    ensures ApiPieces(Head(ms)) == AllPieces(ms[..Width(ms)])
  {
    var front := ms[..Width(ms)];
    if ms[0].ToolResult? {
      ResultPieces(front);
    } else {
      assert front == [ms[0]] && front[..0] == [];
    }
    assert Head(ms) != [] ==> Head(ms)[..0] == [];
  }

  lemma {:induction false} RunsPieces(ms: seq<Message>)
    ensures ApiPieces(Runs(ms)) == AllPieces(ms)
    decreases |ms|
  {
    if ms != [] {
      var front, rest := ms[..Width(ms)], ms[Width(ms)..];
      HeadPieces(ms);
      RunsPieces(rest);
      FrontPieces(front, rest, Head(ms), Runs(rest));
      Rejoin(ms, Width(ms));
    }
  }

  lemma Rejoin<T>(s: seq<T>, k: nat)
    requires k <= |s|
    ensures s[..k] + s[k..] == s
  {
  }

  lemma FrontPieces(front: seq<Message>, rest: seq<Message>, head: seq<ApiMessage>, runs: seq<ApiMessage>)
    requires ApiPieces(head) == AllPieces(front) && ApiPieces(runs) == AllPieces(rest)
    ensures ApiPieces(head + runs) == AllPieces(front + rest)
  {
    ApiPiecesConcat(head, runs);
    PiecesConcat(front, rest);
  }

  lemma {:induction false} SystemHasNoPieces(ms: seq<Message>)
    ensures AllPieces(NonSystem(ms)) == AllPieces(ms)
  {
    if ms != [] {
      var init, last := ms[..|ms| - 1], ms[|ms| - 1];
      SystemHasNoPieces(init);
      PiecesConcat(NonSystem(init), if last.System? then [] else [last]);
      assert [last][..0] == [];
    }
  }

  // Serialization keeps every piece of content, once, in order.
  lemma SerializedInOrder(ms: seq<Message>)
    ensures ApiPieces(Api(ms)) == AllPieces(ms)
  {
    RunsPieces(NonSystem(ms));
    SystemHasNoPieces(ms);
  }

  // ---- Building paired lists ------------------------------------------------------

  lemma LeadingConcat(rest: seq<Message>, b: seq<Message>)
    requires Leading(b) == 0
    ensures Leading(rest + b) == Leading(rest)
    ensures (rest + b)[..Leading(rest)] == rest[..Leading(rest)]
    ensures (rest + b)[Leading(rest)..] == rest[Leading(rest)..] + b
  {
    LeadingPrefix(rest, b);
  }

  // Paired lists can be appended to one another.
  lemma {:induction false} PairedConcat(a: seq<Message>, b: seq<Message>)
    requires Paired(a) && Paired(b)
    ensures Paired(a + b)
    decreases |a|
  {
    if a == [] {
      assert a + b == b;
    } else {
      var m, rest := a[0], a[1..];
      assert a == [m] + rest && a + b == [m] + (rest + b);
      PairedCons(m, rest);
      PairedCons(m, rest + b);
      if Calls(m) {
        assert Leading(b) == 0;
        LeadingConcat(rest, b);
        PairedConcat(rest[Leading(rest)..], b);
      } else {
        PairedConcat(rest, b);
      }
    }
  }

  // A round: the calls and one result for each, in any order.
  lemma RoundPaired(m: Message, results: seq<Message>)
    requires Calls(m) && Leading(results) == |results|
    requires multiset(ResultIds(results)) == multiset(CallIds(m.calls))
    ensures Paired([m] + results)
  {
    PairedCons(m, results);
    assert results[..|results|] == results && results[|results|..] == [];
  }

  lemma PlainPaired(m: Message)
    requires !Calls(m) && !m.ToolResult?
    ensures Paired([m])
  {
    PairedCons(m, []);
    assert [m] + [] == [m];
  }
}
