/**
 Dropping the oldest messages of a prompt that is too big.

 The body of the prompt is cut into blocks that are dropped whole: a message with
 tool calls stays with its results, and with the reply of the same stored row.
 Blocks go from the front until the rest fits, and the last block always stays.
 */
module Trimming {
  import opened Messages
  import opened History

  // The reply half of a stored row whose calls and results precede it.
  predicate SameRowReply(call: Message, m: Message)
    requires call.Assistant?
  {
    m.Assistant? && m.calls == [] && call.seqNo.Some? && m.seqNo == call.seqNo
  }

  function BlockWidth(ms: seq<Message>): (w: nat)
    requires ms != []
    ensures 1 <= w <= |ms|
  {
    if Calls(ms[0]) then
      var k := 1 + Leading(ms[1..]);
      if k < |ms| && SameRowReply(ms[0], ms[k]) then k + 1 else k
    else 1
  }

  function Blocks(ms: seq<Message>): seq<seq<Message>>
    decreases |ms|
  {
    if ms == [] then [] else [ms[..BlockWidth(ms)]] + Blocks(ms[BlockWidth(ms)..])
  }

  function Flat(blocks: seq<seq<Message>>): seq<Message> {
    if blocks == [] then [] else blocks[0] + Flat(blocks[1..])
  }

  lemma {:induction false} FlatBlocks(ms: seq<Message>)
    ensures Flat(Blocks(ms)) == ms
    ensures Blocks(ms) == [] <==> ms == []
    decreases |ms|
  {
    if ms != [] {
      FlatBlocks(ms[BlockWidth(ms)..]);
      FlatCons(ms[..BlockWidth(ms)], Blocks(ms[BlockWidth(ms)..]));
      Rejoin(ms, BlockWidth(ms));
    }
  }

  lemma {:induction false} FlatSplit(blocks: seq<seq<Message>>, k: nat)
    requires k <= |blocks|
    ensures Flat(blocks) == Flat(blocks[..k]) + Flat(blocks[k..])
  {
    if k == 0 {
      assert blocks[..0] == [] && blocks[0..] == blocks;
    } else {
      FlatSplit(blocks[1..], k - 1);
      assert blocks[..k][1..] == blocks[1..][..k - 1] && blocks[1..][k - 1..] == blocks[k..];
      Assoc(blocks[0], Flat(blocks[1..][..k - 1]), Flat(blocks[k..]));
    }
  }

  // The prompt fits without the first k blocks.
  predicate FitsFrom(system: Message, blocks: seq<seq<Message>>, fits: seq<Message> -> bool, k: nat)
    requires k <= |blocks|
  {
    fits([system] + Flat(blocks[k..]))
  }

  // How many blocks are dropped: as few as make the rest fit, but never all.
  ghost predicate DropsFewest(system: Message, blocks: seq<seq<Message>>, fits: seq<Message> -> bool, k: nat) {
    && k < |blocks|
    && (forall j :: 0 <= j < k ==> !FitsFrom(system, blocks, fits, j))
    && (k == |blocks| - 1 || FitsFrom(system, blocks, fits, k))
  }

  lemma LeadingStep(body: seq<Message>, j: nat)
    requires j < |body| && body[j].ToolResult?
    ensures Leading(body[j..]) == 1 + Leading(body[j + 1..])
  {
    assert body[j..][1..] == body[j + 1..];
  }

  // The results from position from on.
  method TakeResults(body: seq<Message>, from: nat) returns (results: seq<Message>, j: nat)
    requires from <= |body|
    ensures j == from + Leading(body[from..]) && j <= |body| && results == body[from..j]
  {
    results, j := [], from;
    while j < |body| && body[j].ToolResult?
      invariant from <= j <= |body| && results == body[from..j]
      invariant Leading(body[from..]) == j - from + Leading(body[j..])
    {
      LeadingStep(body, j);
      results := results + [body[j]];
      j := j + 1;
    }
    assert Leading(body[j..]) == 0;
  }

  lemma BlockWidthAt(body: seq<Message>, i: nat)
    requires i < |body| && Calls(body[i])
    ensures var j := i + 1 + Leading(body[i + 1..]);
            && j <= |body|
            && BlockWidth(body[i..]) == (if j < |body| && SameRowReply(body[i], body[j]) then j + 1 else j) - i
  {
    assert body[i..][1..] == body[i + 1..];
  }

  // The block that starts at i, and where it ends.
  method TakeBlock(body: seq<Message>, i: nat) returns (block: seq<Message>, j: nat)
    requires i < |body|
    ensures j - i == BlockWidth(body[i..]) && j <= |body| && block == body[i..j]
  {
    var msg := body[i];
    block, j := [msg], i + 1;
    if Calls(msg) {
      var results;
      results, j := TakeResults(body, i + 1);
      BlockWidthAt(body, i);
      block := block + results;
      assert block == body[i..j];
      if j < |body| && body[j].Assistant? && body[j].calls == [] && msg.seqNo.Some? && body[j].seqNo == msg.seqNo {
        block := block + [body[j]];
        j := j + 1;
      }
    }
  }

  method Group(body: seq<Message>) returns (blocks: seq<seq<Message>>)
    ensures blocks == Blocks(body)
  {
    blocks := [];
    var i := 0;
    while i < |body|
      invariant 0 <= i <= |body|
      invariant blocks + Blocks(body[i..]) == Blocks(body)
    {
      var block, j := TakeBlock(body, i);
      NextBlock(body, i, j, block);
      Assoc(blocks, [block], Blocks(body[j..]));
      blocks := blocks + [block];
      i := j;
    }
  }

  lemma NextBlock(body: seq<Message>, i: nat, j: nat, block: seq<Message>)
    requires i < j <= |body| && block == body[i..j] && j - i == BlockWidth(body[i..])
    ensures Blocks(body[i..]) == [block] + Blocks(body[j..])
  {
    assert body[i..][..j - i] == block && body[i..][j - i..] == body[j..];
  }

  // The first block that is kept, from block k on.
  function FirstKept(system: Message, blocks: seq<seq<Message>>, fits: seq<Message> -> bool, k: nat): (n: nat)
    requires k < |blocks|
    ensures k <= n < |blocks|
    decreases |blocks| - k
  {
    if k == |blocks| - 1 || FitsFrom(system, blocks, fits, k) then k else FirstKept(system, blocks, fits, k + 1)
  }

  // As few blocks are dropped as make the rest fit, but never all.
  lemma {:induction false} FewestDropped(system: Message, blocks: seq<seq<Message>>, fits: seq<Message> -> bool, k: nat)
    requires k < |blocks| && forall j :: 0 <= j < k ==> !FitsFrom(system, blocks, fits, j)
    ensures DropsFewest(system, blocks, fits, FirstKept(system, blocks, fits, k))
    decreases |blocks| - k
  {
    if k < |blocks| - 1 && !FitsFrom(system, blocks, fits, k) {
      FewestDropped(system, blocks, fits, k + 1);
    }
  }

  method DropUntilFits(system: Message, all: seq<seq<Message>>, fits: seq<Message> -> bool)
    returns (rest: seq<seq<Message>>, dropped: seq<Message>)
    requires all != []
    ensures rest == all[FirstKept(system, all, fits, 0)..] && dropped == Flat(all[..FirstKept(system, all, fits, 0)])
  {
    ghost var k := 0;
    rest, dropped := all, [];
    while |rest| > 1
      invariant k < |all| && rest == all[k..] && dropped == Flat(all[..k])
      invariant FirstKept(system, all, fits, k) == FirstKept(system, all, fits, 0)
    {
      if fits([system] + Flat(rest)) {
        break;
      }
      FlatSnoc(all[..k], all[k]);
      assert all[..k] + [all[k]] == all[..k + 1];
      dropped := dropped + rest[0];
      rest := rest[1..];
      k := k + 1;
    }
  }

  lemma FlatSnoc(blocks: seq<seq<Message>>, block: seq<Message>)
    ensures Flat(blocks + [block]) == Flat(blocks) + block
  {
    FlatSplit(blocks + [block], |blocks|);
    assert (blocks + [block])[..|blocks|] == blocks && (blocks + [block])[|blocks|..] == [block];
    assert [block][1..] == [];
  }

  lemma NothingDropped(body: seq<Message>, k: nat)
    requires k <= |Blocks(body)| && Flat(Blocks(body)[..k]) == []
    ensures Flat(Blocks(body)[k..]) == body
  {
    FlatBlocks(body);
    FlatSplit(Blocks(body), k);
  }

  // big says that the prompt is over the trigger.
  method Trim(messages: seq<Message>, big: bool, fits: seq<Message> -> bool, note: seq<Message> -> string)
    returns (kept: seq<Message>, dropped: seq<Message>)
    ensures !(big && |messages| > 2) ==> kept == messages && dropped == []
    ensures big && |messages| > 2 ==>
      var blocks := Blocks(messages[1..]);
      && blocks != []
      && var k := FirstKept(messages[0], blocks, fits, 0);
         && dropped == Flat(blocks[..k])
         && kept == (if dropped == [] then messages else Attached(messages[0], Flat(blocks[k..]), note(dropped)))
  {
    if !big || |messages| <= 2 {
      return messages, [];
    }
    var system, body := messages[0], messages[1..];
    var blocks := Group(body);
    FlatBlocks(body);
    var rest;
    rest, dropped := DropUntilFits(system, blocks, fits);
    if dropped == [] {
      NothingDropped(body, FirstKept(system, blocks, fits, 0));
      return [system] + Flat(rest), dropped;
    }
    kept := [system] + Flat(rest);
    assert kept[1..] == Flat(rest);
    kept := AttachSummary(kept, note(dropped));
  }

  // The summary goes in front of the newest user message, or becomes the first
  // message of a body that has none.
  function Attached(system: Message, body: seq<Message>, note: string): seq<Message> {
    [system] + WithNote(body, note)
  }

  predicate HasUser(ms: seq<Message>) {
    exists i :: 0 <= i < |ms| && ms[i].User?
  }

  function WithNote(body: seq<Message>, note: string): seq<Message> {
    if HasUser(body) then NoteOnNewest(body, note) else [User(note, None)] + body
  }

  function NoteOnNewest(body: seq<Message>, note: string): seq<Message> {
    if body == [] then []
    else
      var m := body[|body| - 1];
      if m.User? then body[..|body| - 1] + [User(note + "\n\n" + m.content, m.seqNo)]
      else NoteOnNewest(body[..|body| - 1], note) + [m]
  }

  method AttachSummary(messages: seq<Message>, note: string) returns (result: seq<Message>)
    requires messages != []
    ensures result == Attached(messages[0], messages[1..], note)
  {
    var body := messages[1..];
    var idx := |messages| - 1;
    assert body[..idx] == body;
    while idx > 0
      invariant 0 <= idx < |messages|
      invariant forall i :: idx < i < |messages| ==> !messages[i].User?
      invariant NoteOnNewest(body, note) == NoteOnNewest(body[..idx], note) + body[idx..]
    {
      NoteStep(body, idx, note);
      var m := messages[idx];
      if m.User? {
        result := messages[idx := User(note + "\n\n" + m.content, m.seqNo)];
        NotePlaced(messages, idx, note, result);
        return;
      }
      idx := idx - 1;
    }
    result := [messages[0], User(note, None)] + body;
    NoteAlone(messages, note, result);
  }

  lemma NoteAlone(messages: seq<Message>, note: string, result: seq<Message>)
    requires messages != [] && (forall i :: 0 < i < |messages| ==> !messages[i].User?)
    requires result == [messages[0], User(note, None)] + messages[1..]
    ensures result == Attached(messages[0], messages[1..], note)
  {
    forall i | 0 <= i < |messages| - 1 ensures !messages[1..][i].User? {
      assert messages[1..][i] == messages[i + 1];
    }
    NoUser(messages[1..]);
    Assoc([messages[0]], [User(note, None)], messages[1..]);
    assert [messages[0], User(note, None)] == [messages[0]] + [User(note, None)];
  }

  lemma NoUser(ms: seq<Message>)
    requires forall i :: 0 <= i < |ms| ==> !ms[i].User?
    ensures !HasUser(ms)
  {
  }

  // One more message is looked at, from the end.
  lemma NoteStep(body: seq<Message>, idx: nat, note: string)
    requires 0 < idx <= |body| && NoteOnNewest(body, note) == NoteOnNewest(body[..idx], note) + body[idx..]
    ensures var m := body[idx - 1];
            NoteOnNewest(body, note) ==
            if m.User? then (body[..idx - 1] + [User(note + "\n\n" + m.content, m.seqNo)]) + body[idx..]
            else NoteOnNewest(body[..idx - 1], note) + body[idx - 1..]
  {
    var m := body[idx - 1];
    assert body[..idx][..idx - 1] == body[..idx - 1] && body[idx - 1..] == [m] + body[idx..];
    if !m.User? {
      Assoc(NoteOnNewest(body[..idx - 1], note), [m], body[idx..]);
    }
  }

  lemma NotePlaced(messages: seq<Message>, idx: nat, note: string, result: seq<Message>)
    requires 0 < idx < |messages| && messages[idx].User?
    requires var body, u := messages[1..], User(note + "\n\n" + messages[idx].content, messages[idx].seqNo);
             NoteOnNewest(body, note) == (body[..idx - 1] + [u]) + body[idx..] && result == messages[idx := u]
    ensures result == Attached(messages[0], messages[1..], note)
  {
    assert messages[1..][idx - 1].User?;
  }

  // ---- Calls stay with their results ------------------------------------------------

  lemma {:induction false} PairedAtUser(a: seq<Message>, u: Message, b: seq<Message>)
    requires u.User?
    ensures Paired(a + ([u] + b)) <==> Paired(a) && Paired(b)
    decreases |a|
  {
    PairedCons(u, b);
    if a == [] {
      assert a + ([u] + b) == [u] + b;
    } else {
      var m, rest := a[0], a[1..];
      assert a == [m] + rest && a + ([u] + b) == [m] + (rest + ([u] + b));
      PairedCons(m, rest);
      PairedCons(m, rest + ([u] + b));
      if Calls(m) {
        assert Leading([u] + b) == 0;
        LeadingConcat(rest, [u] + b);
        PairedAtUser(rest[Leading(rest)..], u, b);
      } else {
        PairedAtUser(rest, u, b);
      }
    }
  }

  // The note changes the text of one user message and nothing else.
  lemma {:induction false} NoteIsLocal(body: seq<Message>, note: string) returns (i: nat, u: Message)
    requires HasUser(body)
    ensures i < |body| && body[i].User? && u.User? && u.seqNo == body[i].seqNo
    ensures NoteOnNewest(body, note) == body[..i] + ([u] + body[i + 1..])
  {
    var m, init := body[|body| - 1], body[..|body| - 1];
    if m.User? {
      i, u := |body| - 1, User(note + "\n\n" + m.content, m.seqNo);
      assert NoteOnNewest(body, note) == init + [u];
      assert body[i + 1..] == [];
    } else {
      var k :| 0 <= k < |body| && body[k].User?;
      assert init[k].User?;
      i, u := NoteIsLocal(init, note);
      assert body[i + 1..] == init[i + 1..] + [m];
      assert NoteOnNewest(body, note) == NoteOnNewest(init, note) + [m];
    }
  }

  lemma WithNotePaired(body: seq<Message>, note: string)
    requires Paired(body)
    ensures Paired(WithNote(body, note))
  {
    if HasUser(body) {
      var i, u := NoteIsLocal(body, note);
      assert body == body[..i] + ([body[i]] + body[i + 1..]);
      PairedAtUser(body[..i], body[i], body[i + 1..]);
      PairedAtUser(body[..i], u, body[i + 1..]);
    } else {
      PairedCons(User(note, None), body);
    }
  }

  lemma AfterBlockPaired(ms: seq<Message>)
    requires ms != [] && Paired(ms)
    ensures Paired(ms[BlockWidth(ms)..])
  {
    var m, rest := ms[0], ms[1..];
    assert ms == [m] + rest;
    PairedCons(m, rest);
    if Calls(m) {
      var k := Leading(rest);
      assert ms[1 + k..] == rest[k..];
      if BlockWidth(ms) == k + 2 {
        assert rest[k..] == [ms[k + 1]] + ms[k + 2..];
        PairedCons(ms[k + 1], ms[k + 2..]);
      }
    }
  }

  lemma {:induction false} SuffixPaired(ms: seq<Message>, k: nat)
    requires Paired(ms) && k <= |Blocks(ms)|
    ensures Paired(Flat(Blocks(ms)[k..]))
    decreases |ms|
  {
    if k == 0 {
      FlatBlocks(ms);
      assert Blocks(ms)[0..] == Blocks(ms);
    } else {
      AfterBlockPaired(ms);
      SuffixPaired(ms[BlockWidth(ms)..], k - 1);
      assert Blocks(ms)[k..] == Blocks(ms[BlockWidth(ms)..])[k - 1..];
    }
  }

  // Trimming a paired prompt gives a paired prompt.
  lemma TrimKeepsPairs(system: Message, body: seq<Message>, k: nat, note: string)
    requires system.System? && Paired(body) && k <= |Blocks(body)|
    ensures Paired([system] + Flat(Blocks(body)[k..]))
    ensures Paired(Attached(system, Flat(Blocks(body)[k..]), note))
  {
    var kept := Flat(Blocks(body)[k..]);
    SuffixPaired(body, k);
    WithNotePaired(kept, note);
    PairedCons(system, kept);
    PairedCons(system, WithNote(kept, note));
  }

  // ---- Rows are dropped whole --------------------------------------------------------

  // Everything one stored row rendered to is one block.
  lemma RowIsBlock(reader: Reader, prev: string, r: Row, rest: seq<Message>)
    ensures Blocks(reader.Shown(prev, r) + rest) == [reader.Shown(prev, r)] + Blocks(rest)
  {
    var shown := reader.Shown(prev, r);
    if !r.inbound && r.tools != [] {
      reader.ExpandedIds(r.tools);
      var call := Assistant("", reader.Requests(r.tools), Some(r.seqNo));
      var reply := Assistant(reader.WithMarker(prev, r), [], Some(r.seqNo));
      RoundOf(call, reader.Results(r.tools), reply, rest);
      RoundWidth(call, reader.Results(r.tools), [reply] + rest);
    }
    assert BlockWidth(shown + rest) == |shown|;
    assert (shown + rest)[..|shown|] == shown && (shown + rest)[|shown|..] == rest;
  }

  lemma RoundOf(call: Message, results: seq<Message>, reply: Message, rest: seq<Message>)
    ensures ([call] + results + [reply]) + rest == [call] + (results + ([reply] + rest))
  {
    Assoc([call] + results, [reply], rest);
    Assoc([call], results, [reply] + rest);
  }

  // The calls, their results and the reply of one row are one block.
  lemma RoundParts(call: Message, results: seq<Message>, tail: seq<Message>)
    requires tail != []
    ensures var ms := [call] + (results + tail);
            |ms| == 1 + |results| + |tail| && ms[0] == call && ms[1..] == results + tail && ms[|results| + 1] == tail[0]
  {
  }

  lemma RoundWidth(call: Message, results: seq<Message>, tail: seq<Message>)
    requires Calls(call) && Leading(results) == |results| && tail != [] && SameRowReply(call, tail[0])
    ensures BlockWidth([call] + (results + tail)) == |results| + 2
  {
    RoundParts(call, results, tail);
    LeadingPrefix(results, tail);
  }

  lemma OneRow(reader: Reader, c: Carry, r: Row)
    ensures reader.Converted(c, [r]) == reader.Emitted(c, r) && reader.CarryAfter(c, [r]) == reader.Carried(c, r)
  {
    assert [r][..0] == [];
    assert reader.Converted(c, [r]) == [] + reader.Emitted(c, r);
  }

  lemma ConvertedHead(reader: Reader, c: Carry, r: Row, rest: seq<Row>)
    ensures reader.Converted(c, [r] + rest) == reader.Emitted(c, r) + reader.Converted(reader.Carried(c, r), rest)
    ensures reader.CarryAfter(c, [r] + rest) == reader.CarryAfter(reader.Carried(c, r), rest)
  {
    OneRow(reader, c, r);
    reader.ConvertedSplit(c, [r], rest);
    reader.CarrySplit(c, [r], rest);
  }

  // Dropping k blocks of a history followed by live messages drops exactly what the
  // first i rows rendered to, and live messages only after all the history.
  ghost predicate Cut(reader: Reader, c: Carry, rows: seq<Row>, live: seq<Message>, k: nat, i: nat, t: nat) {
    var blocks := Blocks(reader.Converted(c, rows) + live);
    && k <= |blocks| && i <= |rows| && t <= |Blocks(live)| && (t > 0 ==> i == |rows|)
    && Flat(blocks[..k]) == reader.Converted(c, rows[..i]) + Flat(Blocks(live)[..t])
    && Flat(blocks[k..]) == reader.Converted(reader.CarryAfter(c, rows[..i]), rows[i..]) + Flat(Blocks(live)[t..])
  }

  lemma CutNothing(reader: Reader, c: Carry, rows: seq<Row>, live: seq<Message>)
    ensures Cut(reader, c, rows, live, 0, 0, 0)
  {
    var all := reader.Converted(c, rows) + live;
    FlatBlocks(all);
    FlatBlocks(live);
    assert rows[..0] == [] && rows[0..] == rows && Blocks(live)[0..] == Blocks(live) && Blocks(live)[..0] == [];
    assert Blocks(all)[0..] == Blocks(all) && Blocks(all)[..0] == [];
  }

  lemma CutNoRows(reader: Reader, c: Carry, live: seq<Message>, k: nat)
    requires k <= |Blocks(live)|
    ensures Cut(reader, c, [], live, k, 0, k)
  {
    var none: seq<Row> := [];
    assert reader.Converted(c, none) + live == live && none[..0] == none && none[0..] == none;
    assert [] + Flat(Blocks(live)[..k]) == Flat(Blocks(live)[..k]);
    assert [] + Flat(Blocks(live)[k..]) == Flat(Blocks(live)[k..]);
  }

  lemma CutHidden(reader: Reader, c: Carry, r: Row, rest: seq<Row>, live: seq<Message>, k: nat, i: nat, t: nat)
    requires reader.Emitted(c, r) == [] && Cut(reader, reader.Carried(c, r), rest, live, k, i, t)
    ensures Cut(reader, c, [r] + rest, live, k, i + 1, t)
  {
    RowsBehind(r, rest, i);
    HiddenHead(reader, c, r, rest);
    HiddenHead(reader, c, r, rest[..i]);
  }

  lemma RowsBehind(r: Row, rest: seq<Row>, i: nat)
    requires i <= |rest|
    ensures ([r] + rest)[..i + 1] == [r] + rest[..i] && ([r] + rest)[i + 1..] == rest[i..]
  {
  }

  lemma HiddenHead(reader: Reader, c: Carry, r: Row, rows: seq<Row>)
    requires reader.Emitted(c, r) == []
    ensures reader.Converted(c, [r] + rows) == reader.Converted(reader.Carried(c, r), rows)
    ensures reader.CarryAfter(c, [r] + rows) == reader.CarryAfter(reader.Carried(c, r), rows)
  {
    ConvertedHead(reader, c, r, rows);
  }

  lemma FlatCons(block: seq<Message>, blocks: seq<seq<Message>>)
    ensures Flat([block] + blocks) == block + Flat(blocks)
  {
    assert ([block] + blocks)[1..] == blocks;
  }

  lemma BlocksShown(reader: Reader, c: Carry, r: Row, rest: seq<Row>, live: seq<Message>)
    requires reader.Emitted(c, r) != []
    ensures Blocks(reader.Converted(c, [r] + rest) + live) ==
      [reader.Emitted(c, r)] + Blocks(reader.Converted(reader.Carried(c, r), rest) + live)
  {
    var later := reader.Converted(reader.Carried(c, r), rest);
    ConvertedHead(reader, c, r, rest);
    Assoc(reader.Emitted(c, r), later, live);
    RowIsBlock(reader, c.prev, r, later + live);
  }

  lemma CutShown(reader: Reader, c: Carry, r: Row, rest: seq<Row>, live: seq<Message>, k: nat, i: nat, t: nat)
    requires reader.Emitted(c, r) != [] && Cut(reader, reader.Carried(c, r), rest, live, k, i, t)
    ensures Cut(reader, c, [r] + rest, live, k + 1, i + 1, t)
  {
    var rows, shown, c' := [r] + rest, reader.Emitted(c, r), reader.Carried(c, r);
    assert rows[..i + 1] == [r] + rest[..i] && rows[i + 1..] == rest[i..];
    ConvertedHead(reader, c, r, rest[..i]);
    BlocksShown(reader, c, r, rest, live);
    ConsCut(shown, Blocks(reader.Converted(c', rest) + live), k, reader.Converted(c', rest[..i]), Flat(Blocks(live)[..t]));
  }

  lemma ConsCut(block: seq<Message>, tail: seq<seq<Message>>, k: nat, x: seq<Message>, y: seq<Message>)
    requires k <= |tail| && Flat(tail[..k]) == x + y
    ensures Flat(([block] + tail)[..k + 1]) == (block + x) + y && ([block] + tail)[k + 1..] == tail[k..]
  {
    assert ([block] + tail)[..k + 1] == [block] + tail[..k];
    FlatCons(block, tail[..k]);
    Assoc(block, x, y);
  }

  lemma BlocksHidden(reader: Reader, c: Carry, r: Row, rest: seq<Row>, live: seq<Message>)
    requires reader.Emitted(c, r) == []
    ensures reader.Converted(c, [r] + rest) + live == reader.Converted(reader.Carried(c, r), rest) + live
  {
    ConvertedHead(reader, c, r, rest);
    assert [] + reader.Converted(reader.Carried(c, r), rest) == reader.Converted(reader.Carried(c, r), rest);
  }

  lemma {:induction false} DropsRows(reader: Reader, c: Carry, rows: seq<Row>, live: seq<Message>, k: nat)
    returns (i: nat, t: nat)
    requires k <= |Blocks(reader.Converted(c, rows) + live)|
    ensures Cut(reader, c, rows, live, k, i, t)
    decreases |rows|, 0
  {
    if rows == [] {
      assert reader.Converted(c, rows) + live == live;
      CutNoRows(reader, c, live, k);
      return 0, k;
    } else if k == 0 {
      CutNothing(reader, c, rows, live);
      return 0, 0;
    }
    assert rows == [rows[0]] + rows[1..];
    i, t := DropsFrom(reader, c, rows[0], rows[1..], live, k);
  }

  lemma {:induction false} DropsFrom(reader: Reader, c: Carry, r: Row, rest: seq<Row>, live: seq<Message>, k: nat)
    returns (i: nat, t: nat)
    requires 0 < k <= |Blocks(reader.Converted(c, [r] + rest) + live)|
    ensures Cut(reader, c, [r] + rest, live, k, i, t)
    decreases |rest|, 1
  {
    var c' := reader.Carried(c, r);
    if reader.Emitted(c, r) == [] {
      BlocksHidden(reader, c, r, rest, live);
      i, t := DropsRows(reader, c', rest, live, k);
      CutHidden(reader, c, r, rest, live, k, i, t);
    } else {
      BlocksShown(reader, c, r, rest, live);
      i, t := DropsRows(reader, c', rest, live, k - 1);
      CutShown(reader, c, r, rest, live, k - 1, i, t);
    }
    i := i + 1;
  }

  // ---- The watermark over what was dropped ----------------------------------------------

  lemma {:induction false} ConvertedNumbers(reader: Reader, c: Carry, rows: seq<Row>, m: Message)
    requires m in reader.Converted(c, rows) && (m.User? || m.Assistant?)
    ensures m.seqNo.Some? && exists i :: 0 <= i < |rows| && rows[i].seqNo == m.seqNo.value
  {
    var init, last := rows[..|rows| - 1], rows[|rows| - 1];
    if m in reader.Converted(c, init) {
      ConvertedNumbers(reader, c, init, m);
      var i :| 0 <= i < |init| && init[i].seqNo == m.seqNo.value;
      assert rows[i] == init[i];
    } else {
      assert m in reader.Emitted(reader.CarryAfter(c, init), last);
      ShownNumbers(reader, reader.CarryAfter(c, init).prev, last, m);
    }
  }

  lemma ShownNumbers(reader: Reader, prev: string, r: Row, m: Message)
    requires m in reader.Shown(prev, r) && (m.User? || m.Assistant?)
    ensures m.seqNo == Some(r.seqNo)
  {
    reader.ExpandedIds(r.tools);
  }

  // No stored row is split by a trim: a message of the history that is dropped has
  // a lower row number than every one that is kept, so a watermark at the highest
  // dropped number hides no kept message.
  lemma NoRowIsSplit(reader: Reader, c: Carry, rows: seq<Row>, i: nat, m: Message, n: Message)
    requires Stored(rows) && i <= |rows|
    requires m in reader.Converted(c, rows[..i]) && (m.User? || m.Assistant?)
    requires n in reader.Converted(reader.CarryAfter(c, rows[..i]), rows[i..]) && (n.User? || n.Assistant?)
    ensures m.seqNo.Some? && n.seqNo.Some? && m.seqNo.value < n.seqNo.value
  {
    ConvertedNumbers(reader, c, rows[..i], m);
    ConvertedNumbers(reader, reader.CarryAfter(c, rows[..i]), rows[i..], n);
    var j :| 0 <= j < i && rows[..i][j].seqNo == m.seqNo.value;
    var k :| 0 <= k < |rows| - i && rows[i..][k].seqNo == n.seqNo.value;
    assert rows[j].seqNo < rows[i + k].seqNo;
  }
}
