/**
 The stored documents of a user: memory, history, soul and profile.

 Memory, soul and profile are rewritten as a whole, optionally only when the stored
 text still has the normal form that the writer read; history is appended to.
 */
module Documents {
  import opened Messages
  import Archive
  import Utf8

  // ---- Stripping -------------------------------------------------------------------

  function LStrip(isSpace: char -> bool, s: string): string {
    if s != "" && isSpace(s[0]) then LStrip(isSpace, s[1..]) else s
  }

  function RStrip(isSpace: char -> bool, s: string): string {
    if s != "" && isSpace(s[|s| - 1]) then RStrip(isSpace, s[..|s| - 1]) else s
  }

  function Strip(isSpace: char -> bool, s: string): string {
    LStrip(isSpace, RStrip(isSpace, s))
  }

  predicate Blank(isSpace: char -> bool, s: string) {
    forall i :: 0 <= i < |s| ==> isSpace(s[i])
  }

  predicate StartsWith(s: string, t: string) {
    |t| <= |s| && s[..|t|] == t
  }

  lemma {:induction false} RStripBehind(isSpace: char -> bool, a: string, s: string)
    ensures RStrip(isSpace, a + s) == if RStrip(isSpace, s) == "" then RStrip(isSpace, a) else a + RStrip(isSpace, s)
  {
    if s == "" {
      assert a + s == a;
    } else if isSpace(s[|s| - 1]) {
      RStripBehind(isSpace, a, s[..|s| - 1]);
      assert (a + s)[..|a + s| - 1] == a + s[..|s| - 1];
    }
  }

  lemma {:induction false} BlankStrips(isSpace: char -> bool, s: string)
    requires Blank(isSpace, s)
    ensures RStrip(isSpace, s) == ""
  {
    if s != "" {
      BlankStrips(isSpace, s[..|s| - 1]);
    }
  }

  lemma {:induction false} LStripBefore(isSpace: char -> bool, a: string, s: string)
    requires Blank(isSpace, a)
    ensures LStrip(isSpace, a + s) == LStrip(isSpace, s)
  {
    if a == "" {
      assert a + s == s;
    } else {
      LStripBefore(isSpace, a[1..], s);
      assert (a + s)[1..] == a[1..] + s;
    }
  }

  // Blanks around a text do not matter.
  lemma StripAround(isSpace: char -> bool, a: string, s: string, b: string)
    requires Blank(isSpace, a) && Blank(isSpace, b)
    ensures Strip(isSpace, a + s + b) == Strip(isSpace, s)
  {
    BlankStrips(isSpace, b);
    RStripBehind(isSpace, a + s, b);
    RStripBehind(isSpace, a, s);
    BlankStrips(isSpace, a);
    LStripBefore(isSpace, a, RStrip(isSpace, s));
  }

  lemma {:induction false} RStripped(isSpace: char -> bool, s: string)
    ensures var t := RStrip(isSpace, s); t == "" || !isSpace(t[|t| - 1])
    ensures RStrip(isSpace, RStrip(isSpace, s)) == RStrip(isSpace, s)
  {
    if s != "" && isSpace(s[|s| - 1]) {
      RStripped(isSpace, s[..|s| - 1]);
    }
  }

  lemma {:induction false} LStripped(isSpace: char -> bool, s: string)
    requires s == "" || !isSpace(s[|s| - 1])
    ensures var t := LStrip(isSpace, s);
            (t == "" || (!isSpace(t[0]) && !isSpace(t[|t| - 1]))) && RStrip(isSpace, t) == t && LStrip(isSpace, t) == t
  {
    if s != "" && isSpace(s[0]) {
      LStripped(isSpace, s[1..]);
    }
  }

  lemma StripTwice(isSpace: char -> bool, s: string)
    ensures Strip(isSpace, Strip(isSpace, s)) == Strip(isSpace, s)
  {
    RStripped(isSpace, s);
    LStripped(isSpace, RStrip(isSpace, s));
  }

  // ---- Normal forms ------------------------------------------------------------------

  const SOUL_PREFIX := "# Soul"
  const USER_PREFIX := "# User"

  predicate SpacesOk(isSpace: char -> bool) {
    isSpace('\n') && !isSpace('#') && !isSpace('l') && !isSpace('r')
  }

  function StripSectionPrefix(isSpace: char -> bool, raw: string, prefix: string): string {
    var s := Strip(isSpace, raw);
    if StartsWith(s, prefix) then Strip(isSpace, s[|prefix|..]) else s
  }

  datatype Surface = Memory | Soul | Profile

  // The text a write of the given content stores.
  function StoredText(isSpace: char -> bool, f: Surface, content: string): string {
    match f
    case Memory => RStrip(isSpace, content) + "\n"
    case Soul => SOUL_PREFIX + "\n\n" + content + "\n"
    case Profile => USER_PREFIX + "\n\n" + content + "\n"
  }

  // What a read of a stored text returns.
  function Normal(isSpace: char -> bool, f: Surface, raw: string): string {
    match f
    case Memory => Strip(isSpace, raw)
    case Soul => StripSectionPrefix(isSpace, raw, SOUL_PREFIX)
    case Profile => StripSectionPrefix(isSpace, raw, USER_PREFIX)
  }

  lemma PrefixStripped(isSpace: char -> bool, prefix: string, rest: string)
    requires prefix != "" && !isSpace(prefix[0]) && !isSpace(prefix[|prefix| - 1])
    ensures StripSectionPrefix(isSpace, prefix + rest, prefix) == Strip(isSpace, rest)
  {
    RStripBehind(isSpace, prefix, rest);
    var tail := RStrip(isSpace, rest);
    assert RStrip(isSpace, prefix + rest) == prefix + tail;
    assert (prefix + tail)[|prefix|..] == tail && (prefix + tail)[..|prefix|] == prefix;
    RStripped(isSpace, rest);
  }

  lemma SectionReadsBack(isSpace: char -> bool, prefix: string, content: string)
    requires prefix != "" && !isSpace(prefix[0]) && !isSpace(prefix[|prefix| - 1]) && isSpace('\n')
    ensures StripSectionPrefix(isSpace, prefix + "\n\n" + content + "\n", prefix) == Strip(isSpace, content)
  {
    var rest := "\n\n" + content + "\n";
    assert prefix + "\n\n" + content + "\n" == prefix + rest;
    PrefixStripped(isSpace, prefix, rest);
    StripAround(isSpace, "\n\n", content, "\n");
  }

  // What was written reads back stripped, whatever it is.
  lemma ReadsBack(isSpace: char -> bool, f: Surface, content: string)
    requires SpacesOk(isSpace)
    ensures Normal(isSpace, f, StoredText(isSpace, f, content)) == Strip(isSpace, content)
  {
    match f
    case Memory =>
      var body := RStrip(isSpace, content);
      assert "" + body + "\n" == body + "\n";
      StripAround(isSpace, "", body, "\n");
      RStripped(isSpace, content);
    case Soul =>
      assert SOUL_PREFIX[0] == '#' && SOUL_PREFIX[|SOUL_PREFIX| - 1] == 'l';
      SectionReadsBack(isSpace, SOUL_PREFIX, content);
    case Profile =>
      assert USER_PREFIX[0] == '#' && USER_PREFIX[|USER_PREFIX| - 1] == 'r';
      SectionReadsBack(isSpace, USER_PREFIX, content);
  }

  // A text that was read is its own normal form for the comparison.
  lemma NormalIsStripped(isSpace: char -> bool, f: Surface, raw: string)
    ensures Strip(isSpace, Normal(isSpace, f, raw)) == Normal(isSpace, f, raw)
  {
    StripTwice(isSpace, raw);
    StripTwice(isSpace, Strip(isSpace, raw)[if StartsWith(Strip(isSpace, raw), SOUL_PREFIX) then |SOUL_PREFIX| else 0..]);
    StripTwice(isSpace, Strip(isSpace, raw)[if StartsWith(Strip(isSpace, raw), USER_PREFIX) then |USER_PREFIX| else 0..]);
  }

  // ---- The rows and what the writers do to them ----------------------------------------

  datatype Doc = Doc(memory: string, history: string)

  datatype UserRow = UserRow(soul: string, profile: string)

  datatype Docs = Docs(doc: Option<Doc>, user: Option<UserRow>)

  datatype Limits = Limits(isSpace: char -> bool, isDigit: char -> bool, rewrite: Surface -> nat, history: nat)

  datatype Result = Wrote | Refused | Oversize

  function Raw(s: Docs, f: Surface): string {
    match f
    case Memory => if s.doc.Some? then s.doc.value.memory else ""
    case Soul => if s.user.Some? then s.user.value.soul else ""
    case Profile => if s.user.Some? then s.user.value.profile else ""
  }

  function HistoryText(s: Docs): string {
    if s.doc.Some? then s.doc.value.history else ""
  }

  function Read(l: Limits, s: Docs, f: Surface): string {
    Normal(l.isSpace, f, Raw(s, f))
  }

  predicate Exists(s: Docs, f: Surface) {
    f == Memory || s.user.Some?
  }

  // Whether a write lands, and what comes of it otherwise.
  function Verdict(l: Limits, s: Docs, f: Surface, content: string, expected: Option<string>): Result {
    if Utf8.Size(StoredText(l.isSpace, f, content)) > l.rewrite(f) then Oversize
    else if !Exists(s, f) then Refused
    else if expected.Some? && Read(l, s, f) != Strip(l.isSpace, expected.value) then Refused
    else Wrote
  }

  function Put(s: Docs, f: Surface, text: string): Docs {
    match f
    case Memory => s.(doc := Some(Doc(text, HistoryText(s))))
    case Soul => if s.user.Some? then s.(user := Some(s.user.value.(soul := text))) else s
    case Profile => if s.user.Some? then s.(user := Some(s.user.value.(profile := text))) else s
  }

  function Written(l: Limits, s: Docs, f: Surface, content: string, expected: Option<string>): Docs {
    if Verdict(l, s, f, content, expected) == Wrote then Put(s, f, StoredText(l.isSpace, f, content)) else s
  }

  function AppendedText(l: Limits, s: Docs, entry: string): string {
    Archive.Windowed(l.isDigit, Archive.Separated(HistoryText(s)) + Archive.Ended(entry), l.history)
  }

  function Appended(l: Limits, s: Docs, entry: string): Docs {
    s.(doc := Some(Doc(Raw(s, Memory), AppendedText(l, s, entry))))
  }

  class MemoryStore {
    const limits: Limits
    var doc: Option<Doc>
    var user: Option<UserRow>

    ghost function View(): Docs
      reads this
    {
      Docs(doc, user)
    }

    constructor (limits: Limits, initial: Docs)
      ensures View() == initial && this.limits == limits
    {
      this.limits := limits;
      doc, user := initial.doc, initial.user;
    }

    method ReadMemory() returns (text: string)
      ensures text == Read(limits, View(), Memory)
    {
      if doc == None {
        assert Strip(limits.isSpace, "") == "";
        return "";
      }
      text := Strip(limits.isSpace, doc.value.memory);
    }

    method ReadSoul() returns (text: string)
      ensures text == Read(limits, View(), Soul)
    {
      if user == None {
        assert Strip(limits.isSpace, "") == "" && !StartsWith("", SOUL_PREFIX);
        return "";
      }
      text := StripSectionPrefix(limits.isSpace, user.value.soul, SOUL_PREFIX);
    }

    method ReadUser() returns (text: string)
      ensures text == Read(limits, View(), Profile)
    {
      if user == None {
        assert Strip(limits.isSpace, "") == "" && !StartsWith("", USER_PREFIX);
        return "";
      }
      text := StripSectionPrefix(limits.isSpace, user.value.profile, USER_PREFIX);
    }

    method WriteMemory(content: string, expected: Option<string>) returns (r: Result)
      modifies this
      ensures r == Verdict(limits, old(View()), Memory, content, expected)
      ensures View() == Written(limits, old(View()), Memory, content, expected)
    {
      var stored := RStrip(limits.isSpace, content) + "\n";
      if Utf8.Size(stored) > limits.rewrite(Memory) {
        return Oversize;
      }
      var row := if doc == None then Doc("", "") else doc.value;
      if expected.Some? && Strip(limits.isSpace, row.memory) != Strip(limits.isSpace, expected.value) {
        return Refused;
      }
      doc := Some(row.(memory := stored));
      r := Wrote;
    }

    method AppendHistory(entry: string) returns (text: string)
      requires !limits.isDigit('\n')
      modifies this
      ensures View() == Appended(limits, old(View()), entry) && text == HistoryText(View())
    {
      if doc == None {
        text := Archive.AppendWithWindow(limits.isDigit, "", entry, limits.history);
        doc := Some(Doc("", text));
        return;
      }
      text := Archive.AppendWithWindow(limits.isDigit, doc.value.history, entry, limits.history);
      doc := Some(doc.value.(history := text));
    }

    method WriteSoul(content: string, expected: Option<string>) returns (r: Result)
      modifies this
      ensures r == Verdict(limits, old(View()), Soul, content, expected)
      ensures View() == Written(limits, old(View()), Soul, content, expected)
    {
      var stored := SOUL_PREFIX + "\n\n" + content + "\n";
      if Utf8.Size(stored) > limits.rewrite(Soul) {
        return Oversize;
      }
      if user == None {
        return Refused;
      }
      if expected.Some? && StripSectionPrefix(limits.isSpace, user.value.soul, SOUL_PREFIX) != Strip(limits.isSpace, expected.value) {
        return Refused;
      }
      user := Some(user.value.(soul := stored));
      r := Wrote;
    }

    method WriteUser(content: string, expected: Option<string>) returns (r: Result)
      modifies this
      ensures r == Verdict(limits, old(View()), Profile, content, expected)
      ensures View() == Written(limits, old(View()), Profile, content, expected)
    {
      var stored := USER_PREFIX + "\n\n" + content + "\n";
      if Utf8.Size(stored) > limits.rewrite(Profile) {
        return Oversize;
      }
      if user == None {
        return Refused;
      }
      if expected.Some? && StripSectionPrefix(limits.isSpace, user.value.profile, USER_PREFIX) != Strip(limits.isSpace, expected.value) {
        return Refused;
      }
      user := Some(user.value.(profile := stored));
      r := Wrote;
    }
  }

  // A write that lands leaves its own content, and nothing else changed.
  lemma WriteLands(l: Limits, s: Docs, f: Surface, content: string, expected: Option<string>)
    requires SpacesOk(l.isSpace)
    ensures var t := Written(l, s, f, content, expected);
            && (Verdict(l, s, f, content, expected) == Wrote ==> Read(l, t, f) == Strip(l.isSpace, content))
            && (Verdict(l, s, f, content, expected) != Wrote ==> t == s)
            && HistoryText(t) == HistoryText(s) && (forall g :: g != f ==> Raw(t, g) == Raw(s, g))
  {
    ReadsBack(l.isSpace, f, content);
  }

  // A compare-and-swap against what was just read lands, unless it is too long or
  // there is no row.
  lemma QuietReadLands(l: Limits, s: Docs, f: Surface, content: string)
    ensures Verdict(l, s, f, content, Some(Read(l, s, f))) == Verdict(l, s, f, content, None)
  {
    NormalIsStripped(l.isSpace, f, Raw(s, f));
  }

  // Exactly when a write lands: it fits, its row is there, and what the writer read,
  // if it says so, is still what a read returns.
  lemma LandsIff(l: Limits, s: Docs, f: Surface, content: string, expected: Option<string>)
    ensures var size := Utf8.Size(StoredText(l.isSpace, f, content));
            && (Verdict(l, s, f, content, expected) == Oversize <==> size > l.rewrite(f))
            && (Verdict(l, s, f, content, expected) == Wrote <==>
                  && size <= l.rewrite(f) && (f == Memory || s.user.Some?)
                  && (expected.None? || Strip(l.isSpace, expected.value) == Read(l, s, f)))
  {
  }

  // A read takes the section head off only where it stands, and nothing else.
  lemma HeadOnly(isSpace: char -> bool, raw: string)
    ensures var t := Strip(isSpace, raw);
            && Normal(isSpace, Memory, raw) == t
            && Normal(isSpace, Soul, raw) == (if |t| >= 6 && t[..6] == "# Soul" then Strip(isSpace, t[6..]) else t)
            && Normal(isSpace, Profile, raw) == (if |t| >= 6 && t[..6] == "# User" then Strip(isSpace, t[6..]) else t)
  {
    assert |SOUL_PREFIX| == 6 && |USER_PREFIX| == 6;
  }
}
