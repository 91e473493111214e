/**
 Rendering stored rows as history for the LLM.

 The converter walks over the rows and carries two values: the timestamp of the
 last row it rendered, and whether the last row was an approval prompt, which it
 drops together with the reply that follows it.  A slice of the transcript is
 converted with the carry that `StateAfter` reads off the rows before it.
 */
module History {
  import opened Messages

  datatype Interaction = Interaction(callId: string, name: string, arguments: string, result: string)

  // tools is what parsing the row's stored tool interactions yields.
  datatype Row = Row(
    seqNo: nat, inbound: bool, body: string, processed: string, llmReply: string,
    tools: seq<Interaction>, timestamp: string)

  const PRECEDING_LOOKBACK_ROWS := 20

  datatype Carry = Carry(prev: string, afterPrompt: bool)

  const Start := Carry("", false)

  /**
   What the converter takes from elsewhere: which characters are blank, which
   texts are approval prompts and which are replies to one, and the marker for a
   row given the timestamp of the last rendered row and its own.  Nothing below
   depends on which ones these are.
   */
  datatype Reader = Reader(
    isSpace: char -> bool, isPrompt: string -> bool, isReply: string -> bool,
    marker: (string, string) -> Option<string>)
  {

    predicate Blank(s: string) {
      forall i :: 0 <= i < |s| ==> isSpace(s[i])
    }

    function Content(r: Row): string {
      if r.inbound then (if r.processed != "" then r.processed else r.body)
      else (if r.llmReply != "" then r.llmReply else r.body)
    }

    predicate Prompt(r: Row) {
      !r.inbound && r.tools == [] && isPrompt(Content(r))
    }

    predicate Visible(r: Row, afterPrompt: bool) {
      if r.inbound then !Blank(Content(r)) && !(afterPrompt && isReply(Content(r)))
      else !Prompt(r)
    }

    function WithMarker(prev: string, r: Row): string {
      match marker(prev, r.timestamp)
      case Some(m) => m + "\n" + Content(r)
      case None => Content(r)
    }

    function Requests(tools: seq<Interaction>): seq<ToolCall> {
      if tools == [] then []
      else
        var t := tools[|tools| - 1];
        Requests(tools[..|tools| - 1]) + [ToolCall(t.callId, t.name, t.arguments)]
    }

    function Results(tools: seq<Interaction>): seq<Message> {
      if tools == [] then []
      else
        var t := tools[|tools| - 1];
        Results(tools[..|tools| - 1]) + [ToolResult(t.callId, t.result, false)]
    }

    function Expanded(tools: seq<Interaction>, reply: string, seqNo: nat): seq<Message> {
      [Assistant("", Requests(tools), Some(seqNo))] + Results(tools) + [Assistant(reply, [], Some(seqNo))]
    }

    // A row that is rendered, given the timestamp of the one rendered before it.
    function Shown(prev: string, r: Row): seq<Message> {
      var text := WithMarker(prev, r);
      if r.inbound then [User(text, Some(r.seqNo))]
      else if r.tools != [] then Expanded(r.tools, text, r.seqNo)
      else [Assistant(text, [], Some(r.seqNo))]
    }

    // ---- One row at a time --------------------------------------------------------

    function Emitted(c: Carry, r: Row): seq<Message> {
      if Visible(r, c.afterPrompt) then Shown(c.prev, r) else []
    }

    function Carried(c: Carry, r: Row): Carry {
      Carry(if Visible(r, c.afterPrompt) then r.timestamp else c.prev, Prompt(r))
    }

    function CarryAfter(c: Carry, rows: seq<Row>): Carry {
      if rows == [] then c else Carried(CarryAfter(c, rows[..|rows| - 1]), rows[|rows| - 1])
    }

    function Converted(c: Carry, rows: seq<Row>): seq<Message> {
      if rows == [] then []
      else
        var init := rows[..|rows| - 1];
        Converted(c, init) + Emitted(CarryAfter(c, init), rows[|rows| - 1])
    }

    // ---- Told by position in the transcript ----------------------------------------

    predicate Seen(rows: seq<Row>, i: nat)
      requires i < |rows|
    {
      Visible(rows[i], i > 0 && Prompt(rows[i - 1]))
    }

    // One more than the position of the last rendered row before position n, or 0.
    function LastSeen(rows: seq<Row>, n: nat): (k: nat)
      requires n <= |rows|
      ensures k <= n && (k > 0 ==> Seen(rows, k - 1))
      ensures forall i :: k <= i < n ==> !Seen(rows, i)
    {
      if n == 0 then 0 else if Seen(rows, n - 1) then n else LastSeen(rows, n - 1)
    }

    function PrevTimestamp(rows: seq<Row>, n: nat): string
      requires n <= |rows|
    {
      var k := LastSeen(rows, n);
      if k == 0 then "" else rows[k - 1].timestamp
    }

    function CarryAt(rows: seq<Row>): Carry {
      Carry(PrevTimestamp(rows, |rows|), rows != [] && Prompt(rows[|rows| - 1]))
    }

    lemma {:induction false} SeenPrefix(rows: seq<Row>, more: seq<Row>, n: nat)
      requires n <= |rows|
      ensures forall i :: 0 <= i < n ==> Seen(rows + more, i) == Seen(rows, i)
      ensures LastSeen(rows + more, n) == LastSeen(rows, n)
    {
      if n > 0 {
        SeenPrefix(rows, more, n - 1);
      }
    }

    lemma CarryAtStep(init: seq<Row>, r: Row)
      ensures CarryAt(init + [r]) == Carried(CarryAt(init), r)
    {
      var rows, n := init + [r], |init|;
      assert rows[n] == r;
      SeenLast(init, r);
      SamePrevious(init, r);
      assert PrevTimestamp(rows, n + 1) == if Seen(rows, n) then r.timestamp else PrevTimestamp(rows, n);
    }

    lemma SeenLast(init: seq<Row>, r: Row)
      ensures Seen(init + [r], |init|) == Visible(r, CarryAt(init).afterPrompt)
    {
      var rows := init + [r];
      assert init != [] ==> rows[|init| - 1] == init[|init| - 1];
    }

    lemma SamePrevious(init: seq<Row>, r: Row)
      ensures PrevTimestamp(init + [r], |init|) == PrevTimestamp(init, |init|)
    {
      SeenPrefix(init, [r], |init|);
      var k := LastSeen(init, |init|);
      assert k > 0 ==> (init + [r])[k - 1] == init[k - 1];
    }

    // What a conversion of the transcript carries is a matter of position only.
    lemma {:induction false} CarryIsPositional(rows: seq<Row>)
      ensures CarryAfter(Start, rows) == CarryAt(rows)
    {
      if rows != [] {
        var init := rows[..|rows| - 1];
        CarryIsPositional(init);
        CarryAtStep(init, rows[|rows| - 1]);
        assert rows == init + [rows[|rows| - 1]];
      }
    }

    // So is what is rendered for a row.
    lemma EachRowByPosition(rows: seq<Row>, i: nat)
      requires i < |rows|
      ensures Converted(Start, rows[..i + 1]) == Converted(Start, rows[..i]) +
        (if Seen(rows, i) then Shown(PrevTimestamp(rows, i), rows[i]) else [])
    {
      assert rows[..i + 1][..i] == rows[..i] && rows == rows[..i] + rows[i..];
      CarryIsPositional(rows[..i]);
      SeenPrefix(rows[..i], rows[i..], i);
    }

    // ---- The loops --------------------------------------------------------------------

    lemma LastSeenStep(rows: seq<Row>, n: nat)
      requires 0 < n <= |rows|
      ensures LastSeen(rows, n) == if Visible(rows[n - 1], n > 1 && Prompt(rows[n - 2])) then n else LastSeen(rows, n - 1)
    {
    }

    // Scans backwards over the rows before a slice; what it finds is what a
    // conversion of all of them would have carried forward into the slice.
    method StateAfter(preceding: seq<Row>) returns (c: Carry)
      ensures c == CarryAfter(Start, preceding)
    {
      CarryIsPositional(preceding);
      if preceding == [] {
        return Start;
      }
      var afterPrompt := Prompt(preceding[|preceding| - 1]);
      var idx := |preceding|;
      while idx > 0
        invariant 0 <= idx <= |preceding|
        invariant LastSeen(preceding, |preceding|) == LastSeen(preceding, idx)
      {
        idx := idx - 1;
        var beforeIsPrompt := idx > 0 && Prompt(preceding[idx - 1]);
        LastSeenStep(preceding, idx + 1);
        if Visible(preceding[idx], beforeIsPrompt) {
          return Carry(preceding[idx].timestamp, afterPrompt);
        }
      }
      c := Carry("", afterPrompt);
    }

    method ExpandOutbound(tools: seq<Interaction>, reply: string, seqNo: nat) returns (messages: seq<Message>)
      ensures messages == Expanded(tools, reply, seqNo)
    {
      var requests: seq<ToolCall> := [];
      for i := 0 to |tools|
        invariant requests == Requests(tools[..i])
      {
        assert tools[..i + 1][..i] == tools[..i];
        requests := requests + [ToolCall(tools[i].callId, tools[i].name, tools[i].arguments)];
      }
      messages := [Assistant("", requests, Some(seqNo))];
      assert tools[..|tools|] == tools;
      for i := 0 to |tools|
        invariant messages == [Assistant("", requests, Some(seqNo))] + Results(tools[..i])
      {
        assert tools[..i + 1][..i] == tools[..i];
        messages := messages + [ToolResult(tools[i].callId, tools[i].result, false)];
      }
      messages := messages + [Assistant(reply, [], Some(seqNo))];
    }

    // What one row adds to the history, and what is carried on.
    method Render(row: Row, prev: string, lastWasPrompt: bool)
      returns (emitted: seq<Message>, newPrev: string, isPromptNow: bool)
      ensures emitted == Emitted(Carry(prev, lastWasPrompt), row)
      ensures Carry(newPrev, isPromptNow) == Carried(Carry(prev, lastWasPrompt), row)
    {
      var content := Content(row);
      if row.inbound {
        if Blank(content) {
          return [], prev, false;
        }
        if lastWasPrompt && isReply(content) {
          return [], prev, false;
        }
        return [User(WithMarker(prev, row), Some(row.seqNo))], row.timestamp, false;
      }
      if row.tools != [] {
        emitted := ExpandOutbound(row.tools, WithMarker(prev, row), row.seqNo);
        return emitted, row.timestamp, false;
      }
      if isPrompt(content) {
        return [], prev, true;
      }
      return [Assistant(WithMarker(prev, row), [], Some(row.seqNo))], row.timestamp, false;
    }

    method Convert(rows: seq<Row>, preceding: seq<Row>) returns (history: seq<Message>)
      ensures history == Converted(CarryAfter(Start, preceding), rows)
    {
      history := [];
      var carry := StateAfter(preceding);
      var prev, lastWasPrompt := carry.prev, carry.afterPrompt;
      for i := 0 to |rows|
        invariant history == Converted(carry, rows[..i])
        invariant Carry(prev, lastWasPrompt) == CarryAfter(carry, rows[..i])
      {
        OneMoreRow(carry, rows, i);
        var emitted;
        emitted, prev, lastWasPrompt := Render(rows[i], prev, lastWasPrompt);
        history := history + emitted;
      }
      assert rows[..|rows|] == rows;
    }

    lemma OneMoreRow(c: Carry, rows: seq<Row>, i: nat)
      requires i < |rows|
      ensures Converted(c, rows[..i + 1]) == Converted(c, rows[..i]) + Emitted(CarryAfter(c, rows[..i]), rows[i])
      ensures CarryAfter(c, rows[..i + 1]) == Carried(CarryAfter(c, rows[..i]), rows[i])
    {
      assert rows[..i + 1][..i] == rows[..i];
    }

    // ---- Slice independence -------------------------------------------------------------

    lemma {:induction false} CarrySplit(c: Carry, xs: seq<Row>, ys: seq<Row>)
      ensures CarryAfter(c, xs + ys) == CarryAfter(CarryAfter(c, xs), ys)
    {
      if ys == [] {
        assert xs + ys == xs;
      } else {
        var init := ys[..|ys| - 1];
        CarrySplit(c, xs, init);
        assert (xs + ys)[..|xs + ys| - 1] == xs + init;
      }
    }

    lemma {:induction false} ConvertedSplit(c: Carry, xs: seq<Row>, ys: seq<Row>)
      ensures Converted(c, xs + ys) == Converted(c, xs) + Converted(CarryAfter(c, xs), ys)
    {
      if ys == [] {
        assert xs + ys == xs;
      } else {
        var init := ys[..|ys| - 1];
        ConvertedSplit(c, xs, init);
        CarrySplit(c, xs, init);
        SplitStep(c, xs, init, ys[|ys| - 1]);
        LastRejoin(ys);
      }
    }

    lemma ConvertedSnoc(c: Carry, rows: seq<Row>, r: Row)
      ensures Converted(c, rows + [r]) == Converted(c, rows) + Emitted(CarryAfter(c, rows), r)
    {
      assert (rows + [r])[..|rows|] == rows;
    }

    lemma SplitStep(c: Carry, xs: seq<Row>, init: seq<Row>, last: Row)
      requires CarryAfter(c, xs + init) == CarryAfter(CarryAfter(c, xs), init)
      requires Converted(c, xs + init) == Converted(c, xs) + Converted(CarryAfter(c, xs), init)
      ensures Converted(c, xs + (init + [last])) == Converted(c, xs) + Converted(CarryAfter(c, xs), init + [last])
    {
      var mid := CarryAfter(c, xs);
      ConvertedSnoc(c, xs + init, last);
      ConvertedSnoc(mid, init, last);
      Assoc(xs, init, [last]);
      Assoc(Converted(c, xs), Converted(mid, init), Emitted(CarryAfter(mid, init), last));
    }

    // The rows of a slice render the same in the slice and in the whole transcript.
    lemma SliceIndependence(xs: seq<Row>, ys: seq<Row>)
      ensures Converted(Start, xs + ys) == Converted(Start, xs) + Converted(CarryAt(xs), ys)
    {
      ConvertedSplit(Start, xs, ys);
      CarryIsPositional(xs);
    }

    // Positions in a suffix, counted in the suffix and in the whole.
    lemma {:induction false} SeenSuffix(rows: seq<Row>, from: nat, n: nat)
      requires from < n <= |rows|
      ensures forall i :: from < i < n ==> Seen(rows, i) == Seen(rows[from..], i - from)
      ensures LastSeen(rows, n) > from + 1 || LastSeen(rows[from..], n - from) > 1 ==>
        LastSeen(rows, n) == LastSeen(rows[from..], n - from) + from
    {
      if n > from + 1 {
        SeenSuffix(rows, from, n - 1);
        assert Seen(rows, n - 1) == Seen(rows[from..], n - 1 - from);
      }
    }

    // Looking back over k rows only finds the last rendered row at position n - k or
    // later.  That is the right one if and only if such a row is there, or no row
    // before the slice is rendered at all and the first row looked at does not pass
    // for rendered merely because the prompt before it is out of sight.
    lemma LookbackExact(rows: seq<Row>, k: nat)
      requires 0 < k < |rows|
      ensures var n, from := |rows|, |rows| - k; var found := LastSeen(LastOf(rows, k), k);
              (if found == 0 then 0 else found + from) == LastSeen(rows, n) <==>
              LastSeen(rows, n) > from || (LastSeen(rows, n) == 0 && !Visible(rows[from], false))
    {
      SeenSuffix(rows, |rows| - k, |rows|);
      var from := |rows| - k;
      var found := LastSeen(rows[from..], k);
      if found <= 1 && LastSeen(rows, |rows|) <= from + 1 {
        assert Seen(rows[from..], 0) == Visible(rows[from], false);
        assert Seen(rows, from) ==> Visible(rows[from], false);
        assert LastSeen(rows, |rows|) == from + 1 <==> Seen(rows, from);
      }
    }

    // One rendered row among the last k - 1 is enough.
    lemma LookbackSuffices(rows: seq<Row>, k: nat, i: nat)
      requires 0 < k && i < |rows| && |rows| < i + k && Seen(rows, i)
      ensures CarryAt(LastOf(rows, k)) == CarryAt(rows)
    {
      if k < |rows| {
        var from := |rows| - k;
        LastSeenSuffix(rows, from, i);
        SameTimestamp(rows, from);
        assert LastOf(rows, k) == rows[from..];
      }
    }

    lemma LastSeenSuffix(rows: seq<Row>, from: nat, i: nat)
      requires from < i < |rows| && Seen(rows, i)
      ensures LastSeen(rows, |rows|) == LastSeen(rows[from..], |rows| - from) + from && LastSeen(rows, |rows|) > from
    {
      SeenSuffix(rows, from, |rows|);
    }

    lemma SameTimestamp(rows: seq<Row>, from: nat)
      requires from < |rows| && LastSeen(rows, |rows|) == LastSeen(rows[from..], |rows| - from) + from
      requires LastSeen(rows, |rows|) > from
      ensures CarryAt(rows[from..]) == CarryAt(rows)
    {
      var k := LastSeen(rows, |rows|) - from;
      assert rows[from..][k - 1] == rows[k + from - 1];
      assert rows[from..][|rows| - from - 1] == rows[|rows| - 1];
    }

    // What looking back finds is right (see LookbackExact).
    predicate LookbackOk(rows: seq<Row>) {
      |rows| <= PRECEDING_LOOKBACK_ROWS ||
      var from := |rows| - PRECEDING_LOOKBACK_ROWS;
      LastSeen(rows, |rows|) > from || (LastSeen(rows, |rows|) == 0 && !Visible(rows[from], false))
    }

    lemma LookedBack(rows: seq<Row>)
      requires LookbackOk(rows)
      ensures CarryAfter(Start, LastOf(rows, PRECEDING_LOOKBACK_ROWS)) == CarryAt(rows)
    {
      CarryIsPositional(LastOf(rows, PRECEDING_LOOKBACK_ROWS));
      if |rows| > PRECEDING_LOOKBACK_ROWS {
        LookbackExact(rows, PRECEDING_LOOKBACK_ROWS);
        var from := |rows| - PRECEDING_LOOKBACK_ROWS;
        if LastSeen(rows, |rows|) > from {
          SameTimestamp(rows, from);
        }
      }
    }

    // ---- Loading the history of a turn --------------------------------------------------

    // rows is the whole transcript, oldest first, the current row last.
    method LoadHistory(rows: seq<Row>, watermark: Option<nat>, limit: nat) returns (history: seq<Message>)
      ensures history == Loaded(Below(rows, watermark), Visibles(rows, watermark), limit)
    {
      var messages, preceding := LoadWindow(rows, watermark, limit);
      history := Convert(messages, preceding);
    }

    static method LoadWindow(rows: seq<Row>, watermark: Option<nat>, limit: nat)
      returns (messages: seq<Row>, preceding: seq<Row>)
      ensures (messages, preceding) == Window(Below(rows, watermark), Visibles(rows, watermark), limit)
    {
      var all := if watermark.Some? then Above(rows, watermark.value) else rows;
      messages, preceding := TakeRecent(all, limit);
      if messages != [] && |preceding| < PRECEDING_LOOKBACK_ROWS && watermark.Some? && watermark.value != 0 {
        preceding := LastOf(UpTo(rows, watermark.value), PRECEDING_LOOKBACK_ROWS - |preceding|) + preceding;
      } else {
        NoneBelow(preceding);
      }
    }

    static method TakeRecent(all: seq<Row>, limit: nat) returns (messages: seq<Row>, preceding: seq<Row>)
      ensures (messages, preceding) == Recent(all, limit)
    {
      var windowStart := if |all| > limit then |all| - limit else 0;
      messages := if |all| > 1 && windowStart < |all| then all[windowStart..|all| - 1] else [];
      preceding := LastOf(all[..windowStart], PRECEDING_LOOKBACK_ROWS);
    }

    static lemma NoneBelow(inMemory: seq<Row>)
      requires |inMemory| <= PRECEDING_LOOKBACK_ROWS
      ensures LastOf([], PRECEDING_LOOKBACK_ROWS - |inMemory|) + inMemory == inMemory
    {
    }

    // below are the rows at or under the watermark, all the rows above it.
    function Loaded(below: seq<Row>, all: seq<Row>, limit: nat): seq<Message> {
      Converted(CarryAfter(Start, Window(below, all, limit).1), Window(below, all, limit).0)
    }

    lemma SliceRendered(before: seq<Row>, window: seq<Row>, preceding: seq<Row>)
      requires LookbackOk(before) && (window != [] ==> preceding == LastOf(before, PRECEDING_LOOKBACK_ROWS))
      ensures Converted(Start, before + window) == Converted(Start, before) + Converted(CarryAfter(Start, preceding), window)
    {
      SliceIndependence(before, window);
      if window != [] {
        LookedBack(before);
      }
    }

    // The history of a turn is what the transcript renders for the window: the
    // transcript before the current row renders as the rows before the window
    // followed by exactly the loaded history.
    lemma LoadedIsSuffix(below: seq<Row>, all: seq<Row>, limit: nat)
      requires 1 <= limit && all != [] && LookbackOk(BeforeWindow(below, all, limit))
      ensures Converted(Start, BeforeCurrent(below + all)) ==
        Converted(Start, BeforeWindow(below, all, limit)) + Loaded(below, all, limit)
    {
      WindowIsSlice(below, all, limit);
      SliceRendered(BeforeWindow(below, all, limit), Window(below, all, limit).0, Window(below, all, limit).1);
    }

    // Advancing the watermark over the rows mid only drops a prefix of the rendered
    // history.
    lemma TrimDropsPrefix(below: seq<Row>, mid: seq<Row>, all: seq<Row>, limit: nat) returns (gone: seq<Message>)
      requires 1 <= limit && all != []
      requires LookbackOk(BeforeWindow(below, mid + all, limit)) && LookbackOk(BeforeWindow(below + mid, all, limit))
      ensures Loaded(below, mid + all, limit) == gone + Loaded(below + mid, all, limit)
    {
      LoadedIsSuffix(below, mid + all, limit);
      LoadedIsSuffix(below + mid, all, limit);
      var a, b := BeforeWindow(below, mid + all, limit), BeforeWindow(below + mid, all, limit);
      var between := WindowMoves(below, mid, all, limit);
      Assoc(below, mid, all);
      gone := Converted(CarryAt(a), between);
      DropsBetween(a, between, Loaded(below, mid + all, limit), Loaded(below + mid, all, limit));
    }

    lemma DropsBetween(a: seq<Row>, between: seq<Row>, longer: seq<Message>, shorter: seq<Message>)
      requires Converted(Start, a) + longer == Converted(Start, a + between) + shorter
      ensures longer == Converted(CarryAt(a), between) + shorter
    {
      SliceIndependence(a, between);
      SamePrefix(Converted(Start, a), longer, Converted(CarryAt(a), between), shorter);
    }

    // ---- Pairing and row numbers ----------------------------------------------------------

    lemma {:induction false} ExpandedIds(tools: seq<Interaction>)
      ensures CallIds(Requests(tools)) == ResultIds(Results(tools)) && |Requests(tools)| == |Results(tools)| == |tools|
      ensures Leading(Results(tools)) == |tools|
    {
      if tools != [] {
        var init, t := tools[..|tools| - 1], tools[|tools| - 1];
        ExpandedIds(init);
        var requests, results := Requests(init), Results(init);
        assert Requests(tools)[..|requests|] == requests && Results(tools)[..|results|] == results;
        LeadingPrefix(results, [ToolResult(t.callId, t.result, false)]);
      }
    }

    lemma ShownPaired(prev: string, r: Row)
      ensures Paired(Shown(prev, r))
    {
      var text := WithMarker(prev, r);
      PlainPaired(User(text, Some(r.seqNo)));
      PlainPaired(Assistant(text, [], Some(r.seqNo)));
      if r.tools != [] {
        ExpandedIds(r.tools);
        var call := Assistant("", Requests(r.tools), Some(r.seqNo));
        RoundPaired(call, Results(r.tools));
        PairedConcat([call] + Results(r.tools), [Assistant(text, [], Some(r.seqNo))]);
      }
    }

    // Rendered history is paired, whichever rows it is rendered from.
    lemma {:induction false} ConvertedPaired(c: Carry, rows: seq<Row>)
      ensures Paired(Converted(c, rows))
    {
      if rows != [] {
        var init, last := rows[..|rows| - 1], rows[|rows| - 1];
        ConvertedPaired(c, init);
        ShownPaired(CarryAfter(c, init).prev, last);
        PairedConcat(Converted(c, init), Emitted(CarryAfter(c, init), last));
      }
    }
  }

  function LastOf(rows: seq<Row>, k: nat): seq<Row> {
    if |rows| <= k then rows else rows[|rows| - k..]
  }

  function Above(rows: seq<Row>, watermark: nat): seq<Row> {
    if rows == [] then []
    else Above(rows[..|rows| - 1], watermark) + (if rows[|rows| - 1].seqNo > watermark then [rows[|rows| - 1]] else [])
  }

  function UpTo(rows: seq<Row>, watermark: nat): seq<Row> {
    if rows == [] then []
    else UpTo(rows[..|rows| - 1], watermark) + (if rows[|rows| - 1].seqNo <= watermark then [rows[|rows| - 1]] else [])
  }

  // Numbered from 1 upwards, in order.
  ghost predicate Stored(rows: seq<Row>) {
    && (forall i :: 0 <= i < |rows| ==> 1 <= rows[i].seqNo)
    && (forall i, j :: 0 <= i < j < |rows| ==> rows[i].seqNo < rows[j].seqNo)
  }

  function Below(rows: seq<Row>, watermark: Option<nat>): seq<Row> {
    if watermark.Some? && watermark.value != 0 then UpTo(rows, watermark.value) else []
  }

  function Visibles(rows: seq<Row>, watermark: Option<nat>): seq<Row> {
    if watermark.Some? then Above(rows, watermark.value) else rows
  }

  // The rows before the current one that a turn loads, and the rows given to the
  // converter as what precedes them.
  function Window(below: seq<Row>, all: seq<Row>, limit: nat): (seq<Row>, seq<Row>) {
    var (messages, inMemory) := Recent(all, limit);
    (messages,
     if messages != [] && |inMemory| < PRECEDING_LOOKBACK_ROWS
     then LastOf(below, PRECEDING_LOOKBACK_ROWS - |inMemory|) + inMemory else inMemory)
  }

  // The window itself, and the rows right before it that are above the watermark.
  function Recent(all: seq<Row>, limit: nat): (r: (seq<Row>, seq<Row>))
    ensures |r.1| <= PRECEDING_LOOKBACK_ROWS
  {
    var windowStart := if |all| > limit then |all| - limit else 0;
    (if |all| > 1 && windowStart < |all| then all[windowStart..|all| - 1] else [],
     LastOf(all[..windowStart], PRECEDING_LOOKBACK_ROWS))
  }

  // Where the window starts, counted in the whole transcript.
  function WindowStart(below: seq<Row>, all: seq<Row>, limit: nat): (k: nat)
    ensures |below| <= k <= |below + all|
    ensures 1 <= limit && all != [] ==> k < |below + all|
  {
    |below| + (if |all| > limit then |all| - limit else 0)
  }

  function BeforeWindow(below: seq<Row>, all: seq<Row>, limit: nat): seq<Row> {
    (below + all)[..WindowStart(below, all, limit)]
  }

  function BeforeCurrent(rows: seq<Row>): seq<Row> {
    if rows == [] then [] else rows[..|rows| - 1]
  }

  lemma SplitSuffix<T>(a: seq<T>, b: seq<T>, k: nat)
    requires k < |b|
    ensures (a + b)[..|a| + k] == a + b[..k]
    ensures (a + b)[..|a| + |b| - 1] == (a + b[..k]) + b[k..|b| - 1]
  {
  }

  lemma Preceding(below: seq<Row>, front: seq<Row>)
    ensures LastOf(below + front, PRECEDING_LOOKBACK_ROWS) ==
      var inMemory := LastOf(front, PRECEDING_LOOKBACK_ROWS);
      if |inMemory| < PRECEDING_LOOKBACK_ROWS then LastOf(below, PRECEDING_LOOKBACK_ROWS - |inMemory|) + inMemory else inMemory
  {
    if |front| < PRECEDING_LOOKBACK_ROWS {
      LastOfConcat(below, front, PRECEDING_LOOKBACK_ROWS);
    } else {
      LastOfLong(below, front, PRECEDING_LOOKBACK_ROWS);
    }
  }

  lemma LastOfLong(a: seq<Row>, b: seq<Row>, k: nat)
    requires k <= |b|
    ensures LastOf(a + b, k) == LastOf(b, k)
  {
    assert (a + b)[|a + b| - k..] == b[|b| - k..];
  }

  lemma WindowMessages(below: seq<Row>, all: seq<Row>, limit: nat)
    requires 1 <= limit && all != []
    ensures BeforeCurrent(below + all) == BeforeWindow(below, all, limit) + Window(below, all, limit).0
  {
    var k := if |all| > limit then |all| - limit else 0;
    SplitSuffix(below, all, k);
    assert |all| == 1 ==> all[k..|all| - 1] == [];
    assert Window(below, all, limit).0 == all[k..|all| - 1] && BeforeWindow(below, all, limit) == below + all[..k];
  }

  lemma WindowPreceding(below: seq<Row>, all: seq<Row>, limit: nat)
    requires 1 <= limit && Window(below, all, limit).0 != []
    ensures Window(below, all, limit).1 == LastOf(BeforeWindow(below, all, limit), PRECEDING_LOOKBACK_ROWS)
  {
    var k := if |all| > limit then |all| - limit else 0;
    SplitSuffix(below, all, k);
    Preceding(below, all[..k]);
  }

  lemma WindowIsSlice(below: seq<Row>, all: seq<Row>, limit: nat)
    requires 1 <= limit && all != []
    ensures BeforeCurrent(below + all) == BeforeWindow(below, all, limit) + Window(below, all, limit).0
    ensures Window(below, all, limit).0 != [] ==>
      Window(below, all, limit).1 == LastOf(BeforeWindow(below, all, limit), PRECEDING_LOOKBACK_ROWS)
  {
    WindowMessages(below, all, limit);
    if Window(below, all, limit).0 != [] {
      WindowPreceding(below, all, limit);
    }
  }

  // What precedes a window that is not empty: the 20 rows before it in the transcript,
  // wherever the watermark is, or all there are.
  lemma PrecedingIs(below: seq<Row>, all: seq<Row>, limit: nat) returns (before: seq<Row>)
    requires 1 <= limit && 1 < |all|
    ensures before + Window(below, all, limit).0 + [all[|all| - 1]] == below + all
    ensures |Window(below, all, limit).0| == if |all| > limit then limit - 1 else |all| - 1
    ensures Window(below, all, limit).0 != [] ==>
      Window(below, all, limit).1 == if |before| <= 20 then before else before[|before| - 20..]
  {
    before := BeforeWindow(below, all, limit);
    WindowIsSlice(below, all, limit);
    assert below + all == BeforeCurrent(below + all) + [(below + all)[|below + all| - 1]];
  }

  // A higher watermark starts the window at the same row or later.
  lemma WindowMoves(below: seq<Row>, mid: seq<Row>, all: seq<Row>, limit: nat) returns (between: seq<Row>)
    requires 1 <= limit && all != []
    ensures BeforeWindow(below + mid, all, limit) == BeforeWindow(below, mid + all, limit) + between
  {
    var rows := (below + mid) + all;
    assert below + (mid + all) == rows;
    between := rows[WindowStart(below, mid + all, limit)..WindowStart(below + mid, all, limit)];
  }

  lemma LastOfConcat(a: seq<Row>, b: seq<Row>, k: nat)
    requires |b| <= k
    ensures LastOf(a + b, k) == LastOf(a, k - |b|) + b
  {
  }

  // The watermark splits the stored rows in two.
  lemma {:induction false} WatermarkSplits(rows: seq<Row>, watermark: nat)
    requires Stored(rows)
    ensures UpTo(rows, watermark) + Above(rows, watermark) == rows
    ensures forall r :: r in UpTo(rows, watermark) ==> r.seqNo <= watermark
    ensures forall r :: r in Above(rows, watermark) ==> r.seqNo > watermark
  {
    if rows != [] {
      var init, last := rows[..|rows| - 1], rows[|rows| - 1];
      WatermarkSplits(init, watermark);
      assert rows == init + [last];
      if last.seqNo <= watermark {
        NothingAbove(init, watermark);
      }
    }
  }

  lemma {:induction false} NothingAbove(rows: seq<Row>, watermark: nat)
    requires forall i :: 0 <= i < |rows| ==> rows[i].seqNo <= watermark
    ensures Above(rows, watermark) == [] && UpTo(rows, watermark) == rows
  {
    if rows != [] {
      NothingAbove(rows[..|rows| - 1], watermark);
      LastRejoin(rows);
    }
  }

  lemma SamePrefix<T>(a: seq<T>, b: seq<T>, c: seq<T>, d: seq<T>)
    requires a + b == (a + c) + d
    ensures b == c + d
  {
    assert b == (a + b)[|a|..] && c + d == ((a + c) + d)[|a|..];
  }

  // ---- What each row adds, in the fields of the rows --------------------------------------

  predicate OnlyBlanks(isSpace: char -> bool, text: string) {
    forall k :: 0 <= k < |text| ==> isSpace(text[k])
  }

  // An outbound row without tools whose text is an approval prompt.
  predicate AsksApproval(rd: Reader, r: Row) {
    !r.inbound && r.tools == [] && rd.isPrompt(if r.llmReply != "" then r.llmReply else r.body)
  }

  // The rows that are left out of every history: blank messages, approval prompts, and
  // the reply to a prompt that follows it directly.
  predicate AddsNothing(rd: Reader, rows: seq<Row>, i: nat)
    requires i < |rows|
  {
    var r := rows[i];
    var text := if r.processed != "" then r.processed else r.body;
    if r.inbound then
      OnlyBlanks(rd.isSpace, text) || (rd.isReply(text) && i > 0 && AsksApproval(rd, rows[i - 1]))
    else AsksApproval(rd, r)
  }

  // The timestamp of the last row before position i that adds something.
  ghost predicate LastAdded(rd: Reader, rows: seq<Row>, i: nat, prev: string)
    requires i <= |rows|
  {
    || (prev == "" && forall j :: 0 <= j < i ==> AddsNothing(rd, rows, j))
    || exists j :: 0 <= j < i && !AddsNothing(rd, rows, j) && prev == rows[j].timestamp &&
         forall l :: j < l < i ==> AddsNothing(rd, rows, l)
  }

  lemma SeenIff(rd: Reader, rows: seq<Row>, i: nat)
    requires i < |rows|
    ensures rd.Seen(rows, i) <==> !AddsNothing(rd, rows, i)
  {
  }

  lemma {:induction false} LastSeenAdded(rd: Reader, rows: seq<Row>, n: nat)
    requires n <= |rows|
    ensures LastAdded(rd, rows, n, rd.PrevTimestamp(rows, n))
  {
    forall i | 0 <= i < n
      ensures rd.Seen(rows, i) <==> !AddsNothing(rd, rows, i)
    {
      SeenIff(rd, rows, i);
    }
    var k := rd.LastSeen(rows, n);
    if k > 0 {
      assert !AddsNothing(rd, rows, k - 1);
    }
  }

  // A row with tool calls: the calls as they were made, then their results in order.
  ghost predicate CallsWithResults(tools: seq<Interaction>, requests: seq<ToolCall>, results: seq<Message>) {
    && |requests| == |tools| && |results| == |tools|
    && (forall k :: 0 <= k < |tools| ==> requests[k] == ToolCall(tools[k].callId, tools[k].name, tools[k].arguments))
    && (forall k :: 0 <= k < |tools| ==> results[k] == ToolResult(tools[k].callId, tools[k].result, false))
  }

  lemma {:induction false} ToolsInOrder(rd: Reader, tools: seq<Interaction>)
    ensures CallsWithResults(tools, rd.Requests(tools), rd.Results(tools))
  {
    if tools != [] {
      ToolsInOrder(rd, tools[..|tools| - 1]);
    }
  }

  function MarkedText(rd: Reader, prev: string, r: Row, content: string): string {
    if rd.marker(prev, r.timestamp).Some? then rd.marker(prev, r.timestamp).value + "\n" + content else content
  }

  // Row by row: an inbound row adds nothing, or one message of the user with its text;
  // an outbound one nothing, or its reply, behind its calls and their results if it has
  // any.  The texts carry the marker for the time since the last row that added
  // something.
  lemma RowAdds(rd: Reader, rows: seq<Row>, i: nat)
    returns (prev: string, requests: seq<ToolCall>, results: seq<Message>)
    requires i < |rows|
    ensures LastAdded(rd, rows, i, prev) && CallsWithResults(rows[i].tools, requests, results)
    ensures var r := rows[i];
            var said := MarkedText(rd, prev, r, if r.processed != "" then r.processed else r.body);
            var replied := MarkedText(rd, prev, r, if r.llmReply != "" then r.llmReply else r.body);
            rd.Converted(Start, rows[..i + 1]) == rd.Converted(Start, rows[..i]) +
              (if AddsNothing(rd, rows, i) then []
               else if r.inbound then [User(said, Some(r.seqNo))]
               else if r.tools == [] then [Assistant(replied, [], Some(r.seqNo))]
               else [Assistant("", requests, Some(r.seqNo))] + results + [Assistant(replied, [], Some(r.seqNo))])
  {
    prev, requests, results := rd.PrevTimestamp(rows, i), rd.Requests(rows[i].tools), rd.Results(rows[i].tools);
    rd.EachRowByPosition(rows, i);
    LastSeenAdded(rd, rows, i);
    ToolsInOrder(rd, rows[i].tools);
    SeenIff(rd, rows, i);
  }
}
