/**
 The managed rotation policy: which stanzas are the proxy's, and the text written for them, which must read back
 as itself so that a repeated run changes nothing.
 */
module ManagedPolicy {
  import opened LogEntry
  import opened Strings
  import opened Logrotate

  // ---- Recognising stanzas -------------------------------------------------------------------------

  const NPM_LOG_ROOT := "/data/logs"

  predicate Occurs(needle: string, text: string) {
    needle <= text || (text != "" && Occurs(needle, text[1..]))
  }

  predicate UnderRoot(token: string) {
    NPM_LOG_ROOT + "/" <= token
  }

  predicate Traverses(token: string) {
    Occurs("/../", token)
  }

  predicate SomeUnder(header: seq<string>) {
    exists token <- header :: UnderRoot(token)
  }

  /** A header is the proxy's when all its paths lie under the proxy's log root. */
  predicate NpmHeader(header: seq<string>) {
    SomeUnder(header) && forall token <- header :: UnderRoot(token) && !Traverses(token)
  }

  function IsNpm(): Item -> bool {
    (i: Item) => i.Stanza? && NpmHeader(i.header)
  }

  datatype Parse = Parse(npm: seq<Block>, ambiguous: bool)

  /** The blocks with the proxy's headers, in order. */
  function NpmBlocks(blocks: seq<Block>): seq<Block> {
    if blocks == [] then []
    else
      var n := |blocks| - 1;
      NpmBlocks(blocks[..n]) + (if NpmHeader(blocks[n].header) then [blocks[n]] else [])
  }

  /** The file does not scan, a header is partly the proxy's, or its log root is named outside the headers. */
  predicate Doubtful(t: Tokenizer, text: string) {
    var scanned := ScanBlocks(t, text);
    || scanned.Ambiguous?
    || (exists b <- scanned.value :: SomeUnder(b.header) && !NpmHeader(b.header))
    || (NpmBlocks(scanned.value) == [] && Occurs(NPM_LOG_ROOT, text))
  }

  /** Pick out the proxy's stanzas; anything doubtful makes the whole file ambiguous. */
  method ParseLogrotate(t: Tokenizer, text: string) returns (p: Parse)
    ensures p.ambiguous <==> Doubtful(t, text)
    ensures p.npm == if p.ambiguous then [] else NpmBlocks(ScanBlocks(t, text).value)
  {
    hide ScanBlocks, UnderRoot, Traverses;
    var scanned := ScanLogrotateBlocks(t, text);
    if scanned.Ambiguous? {
      return Parse([], true);
    }
    var blocks := scanned.value;
    var npm: seq<Block> := [];
    for i := 0 to |blocks|
      invariant npm == NpmBlocks(blocks[..i])
      invariant forall j :: 0 <= j < i && SomeUnder(blocks[j].header) ==> NpmHeader(blocks[j].header)
    {
      assert blocks[..i + 1][..i] == blocks[..i];
      if SomeUnder(blocks[i].header) {
        if !NpmHeader(blocks[i].header) {
          assert blocks[i] in blocks;
          return Parse([], true);
        }
        npm := npm + [blocks[i]];
      }
    }
    assert blocks[..|blocks|] == blocks;
    if npm == [] && Occurs(NPM_LOG_ROOT, text) {
      return Parse([], true);
    }
    p := Parse(npm, false);
  }

  /** The parsed stanzas are those of the recognised items. */
  lemma {:induction false} NpmBlocksOf(items: seq<Item>, offset: nat)
    ensures NpmBlocks(BlocksOf(items, AnyStanza(), offset)) == BlocksOf(items, IsNpm(), offset)
    decreases |items|
  {
    hide NpmHeader, TextOf;
    if items != [] {
      var init, last := items[..|items| - 1], items[|items| - 1];
      assert items == init + [last];
      NpmBlocksOf(init, offset);
      NpmBlocksStep(init, last, offset);
    }
  }

  lemma NpmBlocksStep(init: seq<Item>, last: Item, offset: nat)
    requires NpmBlocks(BlocksOf(init, AnyStanza(), offset)) == BlocksOf(init, IsNpm(), offset)
    ensures NpmBlocks(BlocksOf(init + [last], AnyStanza(), offset)) == BlocksOf(init + [last], IsNpm(), offset)
  {
    hide NpmHeader, TextOf, BlocksOf, Text, NpmBlocks;
    BlocksAppend(init, last, AnyStanza(), offset);
    BlocksAppend(init, last, IsNpm(), offset);
    if last.Stanza? {
      var at := offset + |Text(init)|;
      NpmBlocksAppend(BlocksOf(init, AnyStanza(), offset), Block(last.header, last.body, at, at + |TextOf(last)|));
    } else {
      assert BlocksOf(init + [last], AnyStanza(), offset) == BlocksOf(init, AnyStanza(), offset);
    }
  }

  lemma NpmBlocksAppend(blocks: seq<Block>, b: Block)
    ensures NpmBlocks(blocks + [b]) == NpmBlocks(blocks) + if NpmHeader(b.header) then [b] else []
  {
    hide NpmHeader;
    assert (blocks + [b])[..|blocks|] == blocks;
  }

  /**
   The cutover: what is left of the native file after the proxy's stanzas are cut out is exactly the text of its
   other lines and stanzas, and it scans to exactly those.
   */
  lemma CutoverKeepsTheRest(t: Tokenizer, text: string, npm: seq<Block>)
    requires ScanBlocks(t, text).Read? && npm == NpmBlocks(ScanBlocks(t, text).value)
    ensures var items := Items(t, Lines(text)).value;
      var cut := Cut(text, npm);
      && cut == Some(Text(Kept(items, IsNpm())))
      && Items(t, Lines(cut.value)) == Read(Kept(items, IsNpm()))
  {
    hide Items, Cut, Kept, BlocksOf, NpmBlocks, Lines, Text;
    NpmBlocksOf(Items(t, Lines(text)).value, 0);
    CutCommutesWithScan(t, text, IsNpm());
  }

  // ---- Writing the policy --------------------------------------------------------------------------

  /** The directives the manager owns. */
  predicate Governed(word: string) {
    word in {"hourly", "daily", "weekly", "monthly", "yearly", "rotate", "maxage", "size", "minsize", "maxsize",
             "compress", "nocompress", "delaycompress", "nodelaycompress", "dateext", "nodateext", "dateformat",
             "dateyesterday", "datehourago", "notifempty", "ifempty", "missingok", "nomissingok"}
  }

  /** A body without the directives the manager owns; lines inside writer scripts always stay. */
  function Preserved(body: seq<string>, inScript: bool): seq<string> {
    if body == [] then []
    else
      Keep(body[0], inScript) + Preserved(body[1..], ScriptAfter(Token(body[0]), inScript))
  }

  function Keep(line: string, inScript: bool): seq<string> {
    if inScript || !Governed(Token(line)) then [ChopNewlines(line)] else []
  }

  function OpenAfter(body: seq<string>, inScript: bool): bool {
    if body == [] then inScript else OpenAfter(body[1..], ScriptAfter(Token(body[0]), inScript))
  }

  lemma Associative(a: seq<string>, b: seq<string>, c: seq<string>)
    ensures a + (b + c) == (a + b) + c
  {
  }

  lemma {:induction false} PreservedAppend(a: seq<string>, b: seq<string>, inScript: bool)
    ensures Preserved(a + b, inScript) == Preserved(a, inScript) + Preserved(b, OpenAfter(a, inScript))
  {
    hide Keep, ScriptAfter, Token;
    if a == [] {
      assert a + b == b;
      assert [] + Preserved(b, inScript) == Preserved(b, inScript);
    } else {
      var after := ScriptAfter(Token(a[0]), inScript);
      PreservedAppend(a[1..], b, after);
      assert (a + b)[1..] == a[1..] + b;
      Associative(Keep(a[0], inScript), Preserved(a[1..], after), Preserved(b, OpenAfter(a, inScript)));
    }
  }

  method PreservedMechanismLines(body: seq<string>) returns (out: seq<string>)
    ensures out == Preserved(body, false)
  {
    hide Governed, Token, ScriptAfter, ChopNewlines;
    out := [];
    var inScript := false;
    for i := 0 to |body|
      invariant out == Preserved(body[..i], false) && inScript == OpenAfter(body[..i], false)
    {
      assert body[..i + 1] == body[..i] + [body[i]];
      OneMore(body[..i], body[i]);
      var word := Token(body[i]);
      if inScript || !Governed(word) {
        out := out + [ChopNewlines(body[i])];
      }
      inScript := ScriptAfter(word, inScript);
    }
    assert body[..|body|] == body;
  }

  lemma OneMore(body: seq<string>, line: string)
    ensures Preserved(body + [line], false) == Preserved(body, false) + Keep(line, OpenAfter(body, false))
    ensures OpenAfter(body + [line], false) == ScriptAfter(Token(line), OpenAfter(body, false))
  {
    hide Keep, ScriptAfter, Token;
    PreservedAppend(body, [line], false);
    OpenAppend(body, [line], false);
    assert [line][1..] == [];
    assert Keep(line, OpenAfter(body, false)) + [] == Keep(line, OpenAfter(body, false));
  }

  lemma {:induction false} OpenAppend(a: seq<string>, b: seq<string>, inScript: bool)
    ensures OpenAfter(a + b, inScript) == OpenAfter(b, OpenAfter(a, inScript))
  {
    hide ScriptAfter, Token;
    if a == [] {
      assert a + b == b;
    } else {
      OpenAppend(a[1..], b, ScriptAfter(Token(a[0]), inScript));
      assert (a + b)[1..] == a[1..] + b;
    }
  }

  // ---- Lines that read the same with their newline ------------------------------------------------

  predicate OneLine(line: string) {
    '\n' !in line
  }

  lemma {:induction false} BeforeNone(s: string, c: char)
    requires c !in s
    ensures Before(s, c) == s
  {
    if s != "" {
      BeforeNone(s[1..], c);
    }
  }

  lemma {:induction false} BeforeLonger(s: string, t: string, c: char)
    requires c in s
    ensures Before(s + t, c) == Before(s, c)
  {
    assert (s + t)[0] == s[0];
    if s[0] != c {
      BeforeLonger(s[1..], t, c);
      assert (s + t)[1..] == s[1..] + t;
    }
  }

  lemma {:induction false} StripNewline(s: string)
    ensures Strip(s + "\n") == Strip(s)
  {
    var n := "\n";
    if s == "" {
      assert s + n == n && n[1..] == "";
    } else {
      assert (s + n)[0] == s[0] && (s + n)[1..] == s[1..] + n;
      if IsSpace(s[0]) {
        StripNewline(s[1..]);
      } else {
        assert (s + n)[..|s|] == s;
      }
    }
  }

  /** A newline at the end changes nothing the scanner looks at. */
  lemma InnerNewline(line: string)
    ensures Inner(line + "\n") == Inner(line)
  {
    hide Strip;
    if '#' in line {
      BeforeLonger(line, "\n", '#');
    } else {
      BeforeNone(line, '#');
      BeforeNone(line + "\n", '#');
      StripNewline(line);
    }
  }

  lemma InnerChopped(line: string)
    requires IsLine(line)
    ensures Inner(ChopNewlines(line)) == Inner(line) && OneLine(ChopNewlines(line))
  {
    hide Inner;
    if Ended(line) {
      var text := line[..|line| - 1];
      assert line == text + "\n";
      ChopOne(text);
      InnerNewline(text);
    } else {
      ChopNone(line);
    }
  }

  lemma ChopOne(text: string)
    requires OneLine(text)
    ensures ChopNewlines(text + "\n") == text && ChopNewlines(text) == text
  {
    assert (text + "\n")[..|text|] == text;
  }

  lemma ChopNone(line: string)
    requires IsLine(line) && !Ended(line)
    ensures ChopNewlines(line) == line && OneLine(line)
  {
  }

  // ---- Bodies that scan ----------------------------------------------------------------------------

  /** The scanner gets through these lines without meeting a brace outside a script, and ends outside scripts. */
  predicate BodyScans(body: seq<string>, inScript: bool) {
    if body == [] then !inScript
    else
      var inner := Inner(body[0]);
      && (inScript || ('{' !in inner && '}' !in inner))
      && BodyScans(body[1..], ScriptAfter(inner, inScript))
  }

  /** Words that open or close scripts stand alone on their line, in lower case. */
  predicate KeywordAlone(line: string) {
    && (Token(line) in SCRIPT_STARTS <==> Inner(line) in SCRIPT_STARTS)
    && (Token(line) == SCRIPT_END <==> Inner(line) == SCRIPT_END)
  }

  /** A scanned body scans again. */
  lemma {:induction false} ScannedBodyScans(lines: seq<string>, inScript: bool)
    requires BodyLength(lines, inScript).Read? && forall l <- lines :: IsLine(l)
    ensures var body := Bodies(lines[..BodyLength(lines, inScript).value]);
      BodyScans(body, inScript) && forall l <- body :: OneLine(l)
  {
    hide Inner, ScriptAfter, IsLine, OneLine;
    var n := BodyLength(lines, inScript).value;
    assert lines[0] in lines;
    InnerChopped(lines[0]);
    if n > 0 {
      ScannedBodyScans(lines[1..], ScriptAfter(Inner(lines[0]), inScript));
      assert lines[..n][1..] == lines[1..][..n - 1];
      var body := Bodies(lines[..n]);
      assert body[1..] == Bodies(lines[1..][..n - 1]);
    }
  }

  /** Taking the managed directives out of a body leaves its scripts as they were. */
  lemma {:induction false} PreservedScans(body: seq<string>, inScript: bool)
    requires BodyScans(body, inScript) && forall l <- body :: KeywordAlone(l) && OneLine(l)
    ensures BodyScans(Preserved(body, inScript), inScript)
    ensures forall l <- Preserved(body, inScript) :: OneLine(l)
    ensures OpenAfter(body, inScript) == false
  {
    hide Inner, Token, OneLine;
    if body != [] {
      assert body[0] in body;
      ChopLine(body[0]);
      SameScript(body[0], inScript);
      GovernedIsNoKeyword(Token(body[0]));
      PreservedScans(body[1..], ScriptAfter(Token(body[0]), inScript));
      var rest := Preserved(body[1..], ScriptAfter(Token(body[0]), inScript));
      if inScript || !Governed(Token(body[0])) {
        assert Preserved(body, inScript)[1..] == rest;
      } else {
        assert Preserved(body, inScript) == rest;
      }
    }
  }

  lemma ChopLine(line: string)
    requires OneLine(line)
    ensures ChopNewlines(line) == line
  {
  }

  lemma SameScript(line: string, inScript: bool)
    requires KeywordAlone(line)
    ensures ScriptAfter(Token(line), inScript) == ScriptAfter(Inner(line), inScript)
  {
    hide Token, Inner;
  }

  lemma GovernedIsNoKeyword(word: string)
    ensures Governed(word) ==> word !in SCRIPT_STARTS && word != SCRIPT_END
  {
  }

  // ---- The managed directives ----------------------------------------------------------------------

  datatype Directive = Directive(word: string, args: string)

  function DirectiveLine(d: Directive): string {
    "    " + Command(d)
  }

  function Command(d: Directive): string {
    d.word + (if d.args == "" then "" else " " + d.args)
  }

  predicate IsWord(word: string) {
    word != "" && forall i :: 0 <= i < |word| ==> 'a' <= word[i] <= 'z'
  }

  /** Arguments the scanner does not stumble over. */
  predicate CleanArgs(args: string) {
    && '#' !in args && '{' !in args && '}' !in args && '\n' !in args
    && (args != "" ==> !IsSpace(args[|args| - 1]))
  }

  predicate Managed(d: Directive) {
    IsWord(d.word) && CleanArgs(d.args) && Governed(d.word)
  }

  const COMPRESS := Directive("compress", "")
  const DELAY := Directive("delaycompress", "")
  const DATED := Directive("dateext", "")
  const DATE_FORMAT := Directive("dateformat", "-%Y%m%dT%H%M%S")
  const KEEP_ALL := Directive("rotate", "-1")
  const NOT_EMPTY := Directive("notifempty", "")
  const MISSING_OK := Directive("missingok", "")
  const BY_SIZE := Directive("size", "10M")
  const BY_HOUR := Directive("hourly", "")

  function Basename(path: string): string {
    if path == "" || path[|path| - 1] == '/' then "" else Basename(path[..|path| - 1]) + [path[|path| - 1]]
  }

  /** Stanzas for nothing but the backend's own log rotate by size, all others by the hour. */
  function Rotation(header: seq<string>): Directive {
    if forall path <- header :: Basename(path) == "backend.log" then BY_SIZE else BY_HOUR
  }

  function Tail(header: seq<string>): seq<string> {
    [DirectiveLine(Rotation(header)), DirectiveLine(COMPRESS), DirectiveLine(DELAY), DirectiveLine(DATED),
     DirectiveLine(DATE_FORMAT), DirectiveLine(KEEP_ALL), DirectiveLine(NOT_EMPTY), DirectiveLine(MISSING_OK)]
  }

  lemma OwnedWords()
    ensures Governed(COMPRESS.word) && Governed(DELAY.word) && Governed(DATED.word) && Governed(DATE_FORMAT.word)
    ensures Governed(KEEP_ALL.word) && Governed(NOT_EMPTY.word) && Governed(MISSING_OK.word)
    ensures Governed(BY_SIZE.word) && Governed(BY_HOUR.word)
  {
  }

  lemma PlainWords()
    ensures IsWord(COMPRESS.word) && IsWord(DELAY.word) && IsWord(DATED.word) && IsWord(DATE_FORMAT.word)
    ensures IsWord(KEEP_ALL.word) && IsWord(NOT_EMPTY.word) && IsWord(MISSING_OK.word)
  {
  }

  lemma RotationIsManaged(header: seq<string>)
    ensures Managed(Rotation(header))
  {
    hide Governed, Basename;
    OwnedWords();
  }

  lemma FormatIsManaged()
    ensures Managed(DATE_FORMAT)
  {
    hide Governed;
    OwnedWords();
    PlainWords();
  }

  lemma CommonIsManaged()
    ensures Managed(COMPRESS) && Managed(DELAY) && Managed(DATED)
    ensures Managed(KEEP_ALL) && Managed(NOT_EMPTY) && Managed(MISSING_OK)
  {
    hide Governed, IsWord;
    OwnedWords();
    PlainWords();
  }

  lemma {:induction false} FirstWordOf(word: string, rest: string)
    requires forall i :: 0 <= i < |word| ==> 'a' <= word[i] <= 'z'
    requires rest == "" || IsSpace(rest[0])
    ensures FirstWord(word + rest) == word
  {
    if word == "" {
      assert word + rest == rest;
    } else {
      FirstWordOf(word[1..], rest);
      assert (word + rest)[1..] == word[1..] + rest;
      assert word == [word[0]] + word[1..];
    }
  }

  lemma Unindent(s: string)
    requires s != "" && !IsSpace(s[0])
    ensures LeftStrip("    " + s) == s
  {
    OneBlank(s);
    OneBlank(" " + s);
    OneBlank(" " + (" " + s));
    OneBlank(" " + (" " + (" " + s)));
    assert "    " + s == " " + (" " + (" " + (" " + s)));
  }

  lemma OneBlank(s: string)
    ensures LeftStrip(" " + s) == LeftStrip(s)
  {
    assert (" " + s)[1..] == s;
  }

  /** A managed line: its word is governed, and to the scanner it is neither brace nor script keyword. */
  lemma ManagedLine(d: Directive)
    requires Managed(d)
    ensures var line := DirectiveLine(d);
      && Governed(Token(line)) && OneLine(line)
      && Inner(line) == Command(d)
      && '{' !in Inner(line) && '}' !in Inner(line)
  {
    hide Governed;
    var command, line := Command(d), DirectiveLine(d);
    CommandEnds(d);
    Unindent(command);
    assert Strip(line) == command;
    FirstWordOf(d.word, if d.args == "" then "" else " " + d.args);
    BeforeNone(line, '#');
  }

  lemma CommandEnds(d: Directive)
    requires Managed(d)
    ensures var command := Command(d);
      && command != "" && !IsSpace(command[0]) && RightStrip(command) == command
      && '#' !in command && '{' !in command && '}' !in command && '\n' !in command
  {
    hide Governed;
  }

  lemma CommandIsNoKeyword(d: Directive)
    requires Managed(d)
    ensures Command(d) !in SCRIPT_STARTS && Command(d) != SCRIPT_END
  {
    hide Governed;
    GovernedIsNoKeyword(d.word);
    KeywordHasNoBlank(Command(d));
    if d.args != "" {
      assert Command(d)[|d.word|] == ' ';
    } else {
      assert Command(d) == d.word;
    }
  }

  lemma KeywordHasNoBlank(word: string)
    ensures word in SCRIPT_STARTS || word == SCRIPT_END ==> ' ' !in word
  {
  }

  /** Managed lines leave the scanner where it is and are all dropped when the policy is written again. */
  lemma {:induction false} ManagedTail(ds: seq<Directive>, lines: seq<string>)
    requires |lines| == |ds| && forall i :: 0 <= i < |ds| ==> Managed(ds[i]) && lines[i] == DirectiveLine(ds[i])
    ensures BodyScans(lines, false) && Preserved(lines, false) == [] && forall l <- lines :: OneLine(l)
  {
    hide Managed, Governed, Inner, Token, DirectiveLine, OneLine;
    if lines != [] {
      ManagedLine(ds[0]);
      CommandIsNoKeyword(ds[0]);
      GovernedIsNoKeyword(Token(lines[0]));
      ManagedTail(ds[1..], lines[1..]);
      assert Preserved(lines, false) == [] + Preserved(lines[1..], false);
    }
  }

  /** The managed tail of a stanza. */
  lemma TailIsInert(header: seq<string>)
    ensures BodyScans(Tail(header), false) && Preserved(Tail(header), false) == []
         && forall l <- Tail(header) :: OneLine(l)
  {
    hide Managed, BodyScans, Preserved, OneLine, DirectiveLine, Rotation;
    RotationIsManaged(header);
    CommonIsManaged();
    FormatIsManaged();
    ManagedTail([Rotation(header), COMPRESS, DELAY, DATED, DATE_FORMAT, KEEP_ALL, NOT_EMPTY, MISSING_OK], Tail(header));
  }

  // ---- The managed text ----------------------------------------------------------------------------

  predicate HasBlank(path: string) {
    exists i :: 0 <= i < |path| && IsSpace(path[i])
  }

  function Printed(t: Tokenizer, path: string): string {
    if HasBlank(path) then t.quote(path) else path
  }

  /** The words of a header, separated and followed by a blank. */
  function Headline(t: Tokenizer, header: seq<string>): string {
    if header == [] then "" else Printed(t, header[0]) + " " + Headline(t, header[1..])
  }

  /** The managed body keeps every line but the managed directives, which follow anew. */
  function ManagedBody(header: seq<string>, body: seq<string>): seq<string> {
    Preserved(body, false) + Tail(header)
  }

  function StanzaLines(t: Tokenizer, b: Block): seq<string> {
    [Headline(t, b.header) + "{"] + ManagedBody(b.header, b.body) + ["}"]
  }

  /** All stanzas, an empty line after each. */
  function AllLines(t: Tokenizer, blocks: seq<Block>): seq<string> {
    if blocks == [] then [] else AllLines(t, blocks[..|blocks| - 1]) + StanzaLines(t, blocks[|blocks| - 1]) + [""]
  }

  function JoinLines(lines: seq<string>): string {
    if lines == [] then ""
    else if |lines| == 1 then lines[0]
    else lines[0] + "\n" + JoinLines(lines[1..])
  }

  function BuildText(t: Tokenizer, blocks: seq<Block>): string {
    ChopNewlines(JoinLines(AllLines(t, blocks))) + "\n"
  }

  /** Write every stanza with its own targets and mechanisms and the managed rotation. */
  method BuildNpmManagedLogrotate(t: Tokenizer, blocks: seq<Block>) returns (text: string)
    ensures text == BuildText(t, blocks)
  {
    hide Tail, Preserved, Headline;
    var lines: seq<string> := [];
    for i := 0 to |blocks|
      invariant lines == AllLines(t, blocks[..i])
    {
      assert blocks[..i + 1][..i] == blocks[..i];
      var kept := PreservedMechanismLines(blocks[i].body);
      lines := lines + ([Headline(t, blocks[i].header) + "{"] + (kept + Tail(blocks[i].header)) + ["}"]) + [""];
    }
    assert blocks[..|blocks|] == blocks;
    text := ChopNewlines(JoinLines(lines)) + "\n";
  }

  /** What the policy may be written for: stanzas whose printed header reads back, and whose body scanned. */
  predicate Writable(t: Tokenizer, b: Block) {
    && b.header != []
    && (var line := Headline(t, b.header);
        '#' !in line && '{' !in line && '\n' !in line && t.split(line) == Some(b.header))
    && BodyScans(b.body, false)
    && forall l <- b.body :: OneLine(l) && KeywordAlone(l)
  }

  // ---- Writing twice -------------------------------------------------------------------------------

  /** The managed body of a managed body is itself: the second writing keeps what the first wrote. */
  lemma ManagedAgain(header: seq<string>, body: seq<string>)
    requires BodyScans(body, false) && forall l <- body :: OneLine(l) && KeywordAlone(l)
    ensures ManagedBody(header, ManagedBody(header, body)) == ManagedBody(header, body)
    ensures BodyScans(ManagedBody(header, body), false) && forall l <- ManagedBody(header, body) :: OneLine(l)
  {
    hide Preserved, Tail, BodyScans, KeywordAlone, OneLine;
    var kept := Preserved(body, false);
    PreservedScans(body, false);
    PreservedIdempotent(body, false);
    TailIsInert(header);
    ScansAppend(kept, Tail(header), false);
    PreservedAppend(kept, Tail(header), false);
    assert kept + [] == kept;
  }

  lemma {:induction false} ScansAppend(a: seq<string>, b: seq<string>, inScript: bool)
    requires BodyScans(a, inScript) && BodyScans(b, false)
    ensures BodyScans(a + b, inScript)
  {
    hide Inner, ScriptAfter;
    if a == [] {
      assert a + b == b;
    } else {
      ScansAppend(a[1..], b, ScriptAfter(Inner(a[0]), inScript));
      assert (a + b)[1..] == a[1..] + b;
    }
  }

  function Ends(lines: seq<string>): (r: seq<string>)
    ensures |r| == |lines|
    ensures forall i :: 0 <= i < |lines| ==> r[i] == lines[i] + "\n"
  {
    seq(|lines|, i requires 0 <= i < |lines| => lines[i] + "\n")
  }

  lemma EndsAppend(a: seq<string>, b: seq<string>)
    ensures Ends(a + b) == Ends(a) + Ends(b)
  {
  }

  lemma EndsBrace()
    ensures Ends(["}"]) == ["}\n"]
  {
    assert "}" + "\n" == "}\n";
  }

  lemma {:induction false} JoinedLines(lines: seq<string>)
    ensures JoinLines(lines + [""]) == Concat(Ends(lines))
  {
    if lines == [] {
      assert [] + [""] == [""];
    } else {
      JoinedLines(lines[1..]);
      assert (lines + [""])[1..] == lines[1..] + [""];
      assert Ends(lines)[1..] == Ends(lines[1..]);
    }
  }

  /** The lines of the managed text, without the empty line after the last stanza. */
  function PolicyLines(t: Tokenizer, blocks: seq<Block>): seq<string>
    requires blocks != []
  {
    if |blocks| == 1 then StanzaLines(t, blocks[0])
    else StanzaLines(t, blocks[0]) + [""] + PolicyLines(t, blocks[1..])
  }

  lemma {:induction false} AllLinesArePolicy(t: Tokenizer, blocks: seq<Block>)
    requires blocks != []
    ensures AllLines(t, blocks) == PolicyLines(t, blocks) + [""]
    decreases |blocks|
  {
    hide StanzaLines;
    var n := |blocks| - 1;
    if n == 0 {
      assert blocks[..0] == [] && AllLines(t, []) == [];
      assert [] + StanzaLines(t, blocks[0]) + [""] == StanzaLines(t, blocks[0]) + [""];
    } else {
      AllLinesArePolicy(t, blocks[..n]);
      PolicyAppend(t, blocks[..n], blocks[n]);
      assert blocks[..n] + [blocks[n]] == blocks;
    }
  }

  lemma {:induction false} PolicyAppend(t: Tokenizer, blocks: seq<Block>, last: Block)
    requires blocks != []
    ensures PolicyLines(t, blocks + [last]) == PolicyLines(t, blocks) + [""] + StanzaLines(t, last)
  {
    hide StanzaLines;
    var all := blocks + [last];
    assert all[1..] == blocks[1..] + [last];
    if |blocks| > 1 {
      PolicyAppend(t, blocks[1..], last);
      assert StanzaLines(t, blocks[0]) + [""] + (PolicyLines(t, blocks[1..]) + [""] + StanzaLines(t, last))
          == StanzaLines(t, blocks[0]) + [""] + PolicyLines(t, blocks[1..]) + [""] + StanzaLines(t, last);
    } else {
      assert PolicyLines(t, [last]) == StanzaLines(t, last);
    }
  }

  lemma {:induction false} PolicyEndsWithBrace(t: Tokenizer, blocks: seq<Block>)
    requires blocks != []
    ensures var lines := PolicyLines(t, blocks); lines != [] && lines[|lines| - 1] == "}"
  {
    if |blocks| > 1 {
      PolicyEndsWithBrace(t, blocks[1..]);
    }
  }

  /** The managed text is its lines, each with its newline. */
  lemma PolicyText(t: Tokenizer, blocks: seq<Block>)
    requires blocks != []
    ensures BuildText(t, blocks) == Concat(Ends(PolicyLines(t, blocks)))
  {
    hide AllLines, PolicyLines, ChopNewlines;
    AllLinesArePolicy(t, blocks);
    PolicyEndsWithBrace(t, blocks);
    var lines := PolicyLines(t, blocks);
    JoinedLines(lines);
    var n := |lines| - 1;
    assert lines == lines[..n] + ["}"];
    EndsAppend(lines[..n], ["}"]);
    EndsBrace();
    ConcatAppend(Ends(lines[..n]), ["}\n"]);
    ConcatOne("}\n");
    ChopAfterBrace(Concat(Ends(lines[..n])));
  }

  lemma ConcatOne(line: string)
    ensures Concat([line]) == line
  {
    assert [line][1..] == [] && Concat([]) == "";
  }

  lemma ChopAfterBrace(text: string)
    ensures ChopNewlines(text + "}\n") + "\n" == text + "}\n"
  {
    var all := text + "}\n";
    assert all[..|all| - 1] == text + "}";
  }

  // ---- Reading it back -----------------------------------------------------------------------------

  lemma {:induction false} ScansToLength(body: seq<string>, inScript: bool, rest: seq<string>)
    requires BodyScans(body, inScript) && forall l <- body :: OneLine(l)
    ensures BodyLength(Ends(body) + ["}\n"] + rest, inScript) == Read(|body|)
  {
    hide Inner, OneLine;
    var lines := Ends(body) + ["}\n"] + rest;
    if body == [] {
      assert lines[0] == "}\n";
      ClosingBrace();
    } else {
      assert lines[0] == body[0] + "\n" && body[0] in body;
      InnerNewline(body[0]);
      BraceInside(Inner(body[0]));
      ScansToLength(body[1..], ScriptAfter(Inner(body[0]), inScript), rest);
      assert lines[1..] == Ends(body[1..]) + ["}\n"] + rest;
    }
  }

  lemma ClosingBrace()
    ensures Inner("}\n") == "}"
  {
    InnerNewline("}");
    assert "}" + "\n" == "}\n";
    assert Inner("}") == "}";
  }

  lemma BraceInside(inner: string)
    ensures '}' !in inner ==> inner != "}"
  {
  }

  lemma {:induction false} BodiesOfEnds(body: seq<string>)
    requires forall l <- body :: OneLine(l)
    ensures Bodies(Ends(body)) == body
  {
    hide OneLine, ChopNewlines;
    if body != [] {
      assert body[0] in body;
      ChopOne(body[0]);
      BodiesOfEnds(body[1..]);
      assert Ends(body)[1..] == Ends(body[1..]);
    }
  }

  function PolicyStanza(t: Tokenizer, b: Block): Item {
    Stanza(Ends(StanzaLines(t, b)), b.header, ManagedBody(b.header, b.body))
  }

  /** A printed stanza reads back with its header and its managed body, whatever follows it. */
  lemma StanzaReadsBack(t: Tokenizer, b: Block, rest: seq<string>)
    requires Writable(t, b)
    ensures Ends(StanzaLines(t, b)) + rest != []
         && FirstItem(t, Ends(StanzaLines(t, b)) + rest) == Read(PolicyStanza(t, b))
  {
    hide ManagedBody, BodyScans, Bodies, Headline, KeywordAlone, OneLine, Inner, BodyLength;
    var body := ManagedBody(b.header, b.body);
    ManagedAgain(b.header, b.body);
    ScansToLength(body, false, rest);
    BodiesOfEnds(body);
    var lines := Ends(StanzaLines(t, b)) + rest;
    EndsAppend(body, ["}"]);
    EndsBrace();
    assert StanzaLines(t, b) == [Headline(t, b.header) + "{"] + (body + ["}"]);
    EndsAppend([Headline(t, b.header) + "{"], body + ["}"]);
    assert lines[1..] == Ends(body) + ["}\n"] + rest;
    assert lines[1..|body| + 1] == Ends(body);
    assert lines[..|body| + 2] == Ends(StanzaLines(t, b));
    HeaderLine(t, b, lines[0]);
  }

  lemma HeaderLine(t: Tokenizer, b: Block, line: string)
    requires Writable(t, b) && line == Headline(t, b.header) + "{" + "\n"
    ensures var stripped := StripComment(line);
      && '{' in stripped
      && Before(stripped, '{') == Headline(t, b.header)
      && Strip(stripped[|Headline(t, b.header)| + 1..]) == ""
  {
    hide BodyScans, KeywordAlone, OneLine, Headline;
    var words := Headline(t, b.header);
    BeforeNone(line, '#');
    assert line[|words|] == '{';
    BeforeMark(words, "{" + "\n");
    assert line == words + ("{" + "\n");
    assert line[|words| + 1..] == "\n";
    StripNewline("");
    assert "" + "\n" == "\n";
  }

  lemma {:induction false} BeforeMark(s: string, t: string)
    requires '{' !in s && t != "" && t[0] == '{'
    ensures Before(s + t, '{') == s
  {
    if s == "" {
      assert s + t == t;
    } else {
      BeforeMark(s[1..], t);
      assert (s + t)[1..] == s[1..] + t && (s + t)[0] == s[0];
    }
  }

  function PolicyItems(t: Tokenizer, blocks: seq<Block>): seq<Item>
    requires blocks != []
  {
    if |blocks| == 1 then [PolicyStanza(t, blocks[0])]
    else [PolicyStanza(t, blocks[0]), Plain("\n")] + PolicyItems(t, blocks[1..])
  }

  /** The managed lines scan to the managed stanzas, with the empty lines between them. */
  lemma {:induction false} PolicyReadsBack(t: Tokenizer, blocks: seq<Block>)
    requires blocks != [] && forall b <- blocks :: Writable(t, b)
    ensures Items(t, Ends(PolicyLines(t, blocks))) == Read(PolicyItems(t, blocks))
  {
    hide FirstItem, Items, PolicyLines, PolicyItems, PolicyStanza, Writable;
    assert blocks[0] in blocks;
    var first := PolicyStanza(t, blocks[0]);
    if |blocks| == 1 {
      StanzaReadsBack(t, blocks[0], []);
      NoItems(t);
      PolicyOne(t, blocks);
      ItemThenRest(t, first, []);
    } else {
      var rest := Ends(PolicyLines(t, blocks[1..]));
      PolicyReadsBack(t, blocks[1..]);
      BlankLine(t, rest);
      ItemThenRest(t, Plain("\n"), rest);
      StanzaReadsBack(t, blocks[0], ["\n"] + rest);
      PolicyMore(t, blocks);
      ItemThenRest(t, first, ["\n"] + rest);
    }
  }

  lemma NoItems(t: Tokenizer)
    ensures Items(t, []) == Read([])
  {
  }

  lemma PolicyOne(t: Tokenizer, blocks: seq<Block>)
    requires |blocks| == 1
    ensures var first := PolicyStanza(t, blocks[0]);
      && first.Source() == Ends(StanzaLines(t, blocks[0])) && first.Source() != []
      && Ends(PolicyLines(t, blocks)) == first.Source() + []
      && PolicyItems(t, blocks) == [first] + []
  {
    hide ManagedBody, Headline;
  }

  lemma PolicyMore(t: Tokenizer, blocks: seq<Block>)
    requires |blocks| > 1
    ensures var first := PolicyStanza(t, blocks[0]);
      && first.Source() == Ends(StanzaLines(t, blocks[0])) && first.Source() != []
      && Ends(PolicyLines(t, blocks)) == first.Source() + (["\n"] + Ends(PolicyLines(t, blocks[1..])))
      && PolicyItems(t, blocks) == [first] + ([Plain("\n")] + PolicyItems(t, blocks[1..]))
  {
    hide ManagedBody, Headline;
    EndsAppend(StanzaLines(t, blocks[0]) + [""], PolicyLines(t, blocks[1..]));
    EndsAppend(StanzaLines(t, blocks[0]), [""]);
    assert "" + "\n" == "\n";
    assert Ends([""]) == ["\n"];
  }

  lemma ItemThenRest(t: Tokenizer, item: Item, rest: seq<string>)
    requires item.Source() != [] && FirstItem(t, item.Source() + rest) == Read(item) && Items(t, rest).Read?
    ensures Items(t, item.Source() + rest) == Read([item] + Items(t, rest).value)
  {
    hide FirstItem;
    assert (item.Source() + rest)[|item.Source()|..] == rest;
  }

  lemma BlankLine(t: Tokenizer, rest: seq<string>)
    ensures FirstItem(t, ["\n"] + rest) == Read(Plain("\n"))
  {
    var lines := ["\n"] + rest;
    assert lines[0] == "\n";
    BeforeNone("\n", '#');
  }

  lemma PolicyLinesCanonical(t: Tokenizer, lines: seq<string>)
    requires forall l <- lines :: OneLine(l)
    ensures Canonical(Ends(lines))
  {
    var all := Ends(lines);
    forall i | 0 <= i < |all|
      ensures IsLine(all[i]) && Ended(all[i])
    {
      assert lines[i] in lines;
    }
  }

  lemma {:induction false} PolicyLinesPlain(t: Tokenizer, blocks: seq<Block>)
    requires blocks != [] && forall b <- blocks :: Writable(t, b)
    ensures forall l <- PolicyLines(t, blocks) :: OneLine(l)
  {
    hide ManagedBody, BodyScans, KeywordAlone, Headline;
    assert blocks[0] in blocks;
    ManagedAgain(blocks[0].header, blocks[0].body);
    if |blocks| > 1 {
      PolicyLinesPlain(t, blocks[1..]);
    }
  }

  /** The header and body of every stanza, in order. */
  function Contents(items: seq<Item>): seq<(seq<string>, seq<string>)> {
    if items == [] then []
    else (if items[0].Stanza? then [(items[0].header, items[0].body)] else []) + Contents(items[1..])
  }

  function ManagedContents(blocks: seq<Block>): seq<(seq<string>, seq<string>)> {
    if blocks == [] then []
    else [(blocks[0].header, ManagedBody(blocks[0].header, blocks[0].body))] + ManagedContents(blocks[1..])
  }

  lemma {:induction false} PolicyContents(t: Tokenizer, blocks: seq<Block>)
    requires blocks != []
    ensures Contents(PolicyItems(t, blocks)) == ManagedContents(blocks)
  {
    hide ManagedBody, StanzaLines, Contents;
    var first := PolicyStanza(t, blocks[0]);
    if |blocks| > 1 {
      PolicyContents(t, blocks[1..]);
      var tail := PolicyItems(t, blocks[1..]);
      assert PolicyItems(t, blocks) == [first] + ([Plain("\n")] + tail);
      ContentsFirst(first, [Plain("\n")] + tail);
      ContentsFirst(Plain("\n"), tail);
    } else {
      assert PolicyItems(t, blocks) == [first] + [] && blocks[1..] == [];
      ContentsFirst(first, []);
      ContentsOfNothing();
    }
  }

  lemma ContentsFirst(first: Item, rest: seq<Item>)
    ensures Contents([first] + rest) == (if first.Stanza? then [(first.header, first.body)] else []) + Contents(rest)
  {
    assert ([first] + rest)[1..] == rest;
  }

  lemma ContentsOfNothing()
    ensures Contents([]) == []
  {
  }

  /**
   Reading the managed policy back: it scans, to stanzas with the same headers and the managed bodies, in order.
   */
  lemma PolicyScans(t: Tokenizer, blocks: seq<Block>)
    requires blocks != [] && forall b <- blocks :: Writable(t, b)
    ensures var items := Items(t, Lines(BuildText(t, blocks)));
      items.Read? && Contents(items.value) == ManagedContents(blocks)
  {
    hide *;
    PolicyText(t, blocks);
    PolicyLinesPlain(t, blocks);
    PolicyLinesCanonical(t, PolicyLines(t, blocks));
    LinesOfConcat(Ends(PolicyLines(t, blocks)));
    PolicyReadsBack(t, blocks);
    PolicyContents(t, blocks);
  }

  /** The blocks have these headers and bodies. */
  predicate HasContents(blocks: seq<Block>, contents: seq<(seq<string>, seq<string>)>) {
    |blocks| == |contents| && forall i :: 0 <= i < |blocks| ==> (blocks[i].header, blocks[i].body) == contents[i]
  }

  lemma {:induction false} BlocksHaveContents(items: seq<Item>, offset: nat)
    ensures HasContents(BlocksOf(items, AnyStanza(), offset), Contents(items))
  {
    hide TextOf;
    if items != [] {
      BlocksHaveContents(items[1..], offset + |TextOf(items[0])|);
    }
  }

  /** Writing depends on headers and managed bodies alone, so writing what was read back writes the same. */
  lemma {:induction false} WrittenTwice(t: Tokenizer, blocks: seq<Block>, again: seq<Block>)
    requires HasContents(again, ManagedContents(blocks)) && forall b <- blocks :: Writable(t, b)
    ensures AllLines(t, again) == AllLines(t, blocks)
    decreases |blocks|
  {
    hide ManagedBody, Headline, BodyScans, KeywordAlone, OneLine;
    ManagedLength(blocks);
    if blocks != [] {
      var n := |blocks| - 1;
      assert blocks[n] in blocks;
      ManagedInit(blocks);
      ManagedAgain(blocks[n].header, blocks[n].body);
      WrittenTwice(t, blocks[..n], again[..n]);
    }
  }

  lemma {:induction false} ManagedLength(blocks: seq<Block>)
    ensures |ManagedContents(blocks)| == |blocks|
    ensures forall i :: 0 <= i < |blocks| ==>
      ManagedContents(blocks)[i] == (blocks[i].header, ManagedBody(blocks[i].header, blocks[i].body))
  {
    hide ManagedBody;
    if blocks != [] {
      ManagedLength(blocks[1..]);
    }
  }

  lemma ManagedInit(blocks: seq<Block>)
    requires blocks != []
    ensures ManagedContents(blocks[..|blocks| - 1]) == ManagedContents(blocks)[..|ManagedContents(blocks)| - 1]
  {
    hide ManagedBody;
    ManagedLength(blocks);
    ManagedLength(blocks[..|blocks| - 1]);
  }

  /**
   The managed policy is a fixed point: scanning it yields the same headers, and building it again from that scan
   yields the identical text.
   */
  lemma PolicyIsFixedPoint(t: Tokenizer, blocks: seq<Block>)
    requires blocks != [] && forall b <- blocks :: Writable(t, b)
    ensures var again := ScanBlocks(t, BuildText(t, blocks));
      && again.Read?
      && HasContents(again.value, ManagedContents(blocks))
      && BuildText(t, again.value) == BuildText(t, blocks)
  {
    hide Items, Lines, AllLines, ManagedContents, Contents, BlocksOf, HasContents, Writable;
    PolicyScans(t, blocks);
    var items := Items(t, Lines(BuildText(t, blocks))).value;
    BlocksHaveContents(items, 0);
    WrittenTwice(t, blocks, BlocksOf(items, AnyStanza(), 0));
  }

  lemma {:induction false} AllNpm(blocks: seq<Block>)
    requires forall b <- blocks :: NpmHeader(b.header)
    ensures NpmBlocks(blocks) == blocks
  {
    hide NpmHeader;
    if blocks != [] {
      AllNpm(blocks[..|blocks| - 1]);
      assert blocks == blocks[..|blocks| - 1] + [blocks[|blocks| - 1]];
    }
  }

  /**
   A repeated run reads the managed policy through the parser: for the proxy's own stanzas it is not doubtful, every one
   of them is recognised with its managed body, and writing them again changes nothing.
   */
  lemma PolicyParses(t: Tokenizer, blocks: seq<Block>)
    requires blocks != [] && forall b <- blocks :: Writable(t, b) && NpmHeader(b.header)
    ensures var text := BuildText(t, blocks);
      && !Doubtful(t, text)
      && var npm := NpmBlocks(ScanBlocks(t, text).value);
         HasContents(npm, ManagedContents(blocks)) && BuildText(t, npm) == text
  {
    hide ScanBlocks, BuildText, ManagedBody, Writable, NpmHeader, SomeUnder, Occurs;
    PolicyIsFixedPoint(t, blocks);
    var again := ScanBlocks(t, BuildText(t, blocks)).value;
    ManagedLength(blocks);
    forall b <- again
      ensures NpmHeader(b.header)
    {
      var i :| 0 <= i < |again| && again[i] == b;
      assert (again[i].header, again[i].body) == ManagedContents(blocks)[i];
      assert blocks[i] in blocks;
    }
    AllNpm(again);
  }

  /** The lines inside writer scripts, with the words that open and close them. */
  function ScriptLines(body: seq<string>, inScript: bool): seq<string> {
    if body == [] then []
    else
      var after := ScriptAfter(Token(body[0]), inScript);
      (if inScript || after then [ChopNewlines(body[0])] else []) + ScriptLines(body[1..], after)
  }

  /** Writer scripts come through unchanged. */
  lemma {:induction false} ScriptsIntact(body: seq<string>, inScript: bool)
    requires forall l <- body :: OneLine(l)
    ensures ScriptLines(Preserved(body, inScript), inScript) == ScriptLines(body, inScript)
  {
    hide Token, OneLine, Governed;
    if body != [] {
      assert body[0] in body;
      ChopLine(body[0]);
      GovernedIsNoKeyword(Token(body[0]));
      var after := ScriptAfter(Token(body[0]), inScript);
      ScriptsIntact(body[1..], after);
      var rest := Preserved(body[1..], after);
      if inScript || !Governed(Token(body[0])) {
        assert Preserved(body, inScript) == [body[0]] + rest;
        assert ([body[0]] + rest)[1..] == rest;
      } else {
        assert Preserved(body, inScript) == rest;
      }
    }
  }

  /** Dropping managed directives is idempotent and leaves scripts open or closed as they were. */
  lemma {:induction false} PreservedIdempotent(body: seq<string>, inScript: bool)
    requires forall l <- body :: OneLine(l)
    ensures Preserved(Preserved(body, inScript), inScript) == Preserved(body, inScript)
    ensures OpenAfter(Preserved(body, inScript), inScript) == OpenAfter(body, inScript)
    ensures forall l <- Preserved(body, inScript) :: OneLine(l)
  {
    hide Token, OneLine, Governed;
    if body != [] {
      assert body[0] in body;
      ChopLine(body[0]);
      GovernedIsNoKeyword(Token(body[0]));
      var after := ScriptAfter(Token(body[0]), inScript);
      PreservedIdempotent(body[1..], after);
      var rest := Preserved(body[1..], after);
      if inScript || !Governed(Token(body[0])) {
        assert Preserved(body, inScript) == [body[0]] + rest;
        assert ([body[0]] + rest)[1..] == rest;
      } else {
        assert Preserved(body, inScript) == rest;
      }
    }
  }

  lemma {:induction false} OpenKeepsAll(body: seq<string>)
    requires forall l <- body :: OneLine(l) && ScriptAfter(Token(l), true)
    ensures Preserved(body, true) == body
  {
    hide Token, OneLine, ScriptAfter;
    if body != [] {
      assert body[0] in body;
      ChopLine(body[0]);
      OpenKeepsAll(body[1..]);
      assert Preserved(body, true) == [body[0]] + body[1..];
    }
  }

  lemma TailStaysOpen(header: seq<string>)
    ensures forall l <- Tail(header) :: OneLine(l) && ScriptAfter(Token(l), true)
  {
    hide Managed, OneLine, DirectiveLine, Rotation, Token, Governed;
    RotationIsManaged(header);
    CommonIsManaged();
    FormatIsManaged();
    hide ScriptAfter, COMPRESS, DELAY, DATED, DATE_FORMAT, KEEP_ALL, NOT_EMPTY, MISSING_OK;
    LineStaysOpen(Rotation(header));
    LineStaysOpen(COMPRESS);
    LineStaysOpen(DELAY);
    LineStaysOpen(DATED);
    LineStaysOpen(DATE_FORMAT);
    LineStaysOpen(KEEP_ALL);
    LineStaysOpen(NOT_EMPTY);
    LineStaysOpen(MISSING_OK);
  }

  lemma LineStaysOpen(d: Directive)
    requires Managed(d)
    ensures OneLine(DirectiveLine(d)) && ScriptAfter(Token(DirectiveLine(d)), true)
  {
    hide Managed, OneLine, DirectiveLine, Token, Governed;
    ManagedLine(d);
    GovernedIsNoKeyword(Token(DirectiveLine(d)));
  }

  /**
   Writing a body a second time changes it exactly when the writer believes a script is still open at its end, as
   after a capitalised keyword that the scanner does not take for one: the managed lines then pile up run by run.
   */
  lemma SecondWritingExactly(header: seq<string>, body: seq<string>)
    requires forall l <- body :: OneLine(l)
    ensures ManagedBody(header, ManagedBody(header, body)) == ManagedBody(header, body) <==> !OpenAfter(body, false)
  {
    hide Preserved, Tail, OneLine, Token, ScriptAfter;
    var kept := Preserved(body, false);
    PreservedIdempotent(body, false);
    PreservedAppend(kept, Tail(header), false);
    TailIsInert(header);
    TailStaysOpen(header);
    OpenKeepsAll(Tail(header));
    TailLength(header);
    assert kept + [] == kept;
  }

  lemma TailLength(header: seq<string>)
    ensures |Tail(header)| == 8
  {
  }
}
