/**
 The logrotate file of the proxy guests: scanning its stanzas, cutting recognised ones out of the text, and
 writing the managed policy that must read back as itself. Newline is the only line terminator.
 */
module Logrotate {
  import opened LogEntry
  import opened Strings

  // ---- Text ----------------------------------------------------------------------------------------

  /** The lines of a text, each with its newline but perhaps the last. */
  function Lines(text: string): seq<string> {
    if text == "" then []
    else
      var n := LineLength(text);
      [text[..n]] + Lines(text[n..])
  }

  /** The length of the first line, its newline included. */
  function LineLength(text: string): (n: nat)
    requires text != ""
    ensures 1 <= n <= |text|
    ensures forall i :: 0 <= i < n - 1 ==> text[i] != '\n'
    ensures n < |text| ==> text[n - 1] == '\n'
  {
    if text[0] == '\n' || |text| == 1 then 1 else 1 + LineLength(text[1..])
  }

  function Concat(lines: seq<string>): string {
    if lines == [] then "" else lines[0] + Concat(lines[1..])
  }

  /** A line has no newline but at its end. */
  predicate IsLine(line: string) {
    line != "" && forall i :: 0 <= i < |line| - 1 ==> line[i] != '\n'
  }

  predicate Ended(line: string) {
    line != "" && line[|line| - 1] == '\n'
  }

  /** Lines as they come out of a text: only the last may lack its newline. */
  predicate Canonical(lines: seq<string>) {
    (forall l <- lines :: IsLine(l)) && forall i :: 0 <= i < |lines| - 1 ==> Ended(lines[i])
  }

  lemma {:induction false} LinesCanonical(text: string)
    ensures Canonical(Lines(text)) && Concat(Lines(text)) == text
  {
    assert Canonical([]);
    hide LineLength, Canonical;
    if text != "" {
      var n := LineLength(text);
      assert IsLine(text[..n]) && (n < |text| ==> Ended(text[..n]));
      LinesCanonical(text[n..]);
      hide Lines, IsLine, Ended;
      LinesUnfold(text, n);
      LinesOfNothing();
      assert n == |text| ==> text[n..] == "";
      LineFirst(text[..n], Lines(text[n..]));
    }
  }

  lemma LinesUnfold(text: string, n: nat)
    requires text != "" && n == LineLength(text)
    ensures Lines(text) == [text[..n]] + Lines(text[n..]) && text[..n] + text[n..] == text
  {
    hide LineLength;
  }

  lemma LinesOfNothing()
    ensures Lines("") == []
  {
  }

  lemma LineFirst(line: string, rest: seq<string>)
    requires IsLine(line) && Canonical(rest) && (rest != [] ==> Ended(line))
    ensures Canonical([line] + rest) && Concat([line] + rest) == line + Concat(rest)
  {
    hide IsLine, Ended;
    assert ([line] + rest)[1..] == rest;
  }

  /** Canonical lines are exactly the lines of their text. */
  lemma {:induction false} LinesOfConcat(lines: seq<string>)
    requires Canonical(lines)
    ensures Lines(Concat(lines)) == lines
  {
    if lines != [] {
      var text, n := Concat(lines), |lines[0]|;
      LinesOfConcat(lines[1..]);
      assert lines[0] in lines;
      assert text[..n] == lines[0] && text[n..] == Concat(lines[1..]);
      if |lines| > 1 {
        FirstLine(text, n);
      } else {
        assert text == lines[0];
        WholeLine(text);
      }
    }
  }

  lemma {:induction false} FirstLine(text: string, n: nat)
    requires 1 <= n <= |text| && text[n - 1] == '\n' && forall i :: 0 <= i < n - 1 ==> text[i] != '\n'
    ensures LineLength(text) == n
  {
    if n > 1 {
      FirstLine(text[1..], n - 1);
    }
  }

  lemma {:induction false} WholeLine(text: string)
    requires text != "" && forall i :: 0 <= i < |text| - 1 ==> text[i] != '\n'
    ensures LineLength(text) == |text|
  {
    if |text| > 1 {
      WholeLine(text[1..]);
    }
  }

  // ---- Words ---------------------------------------------------------------------------------------

  /** Without the newlines at its end. */
  function ChopNewlines(s: string): string {
    if s != "" && s[|s| - 1] == '\n' then ChopNewlines(s[..|s| - 1]) else s
  }

  /** The text before the first occurrence of a character, all of it when there is none. */
  function Before(s: string, c: char): (r: string)
    ensures r <= s && c !in r && (|r| < |s| ==> s[|r|] == c)
  {
    if s == "" || s[0] == c then "" else [s[0]] + Before(s[1..], c)
  }

  function StripComment(line: string): string {
    Before(line, '#')
  }

  function Lower(c: char): char {
    if 'A' <= c <= 'Z' then c - 'A' + 'a' else c
  }

  function FirstWord(s: string): string {
    if s == "" || IsSpace(s[0]) then "" else [Lower(s[0])] + FirstWord(s[1..])
  }

  /** The first word of a line, in lower case. */
  function Token(line: string): string {
    FirstWord(Strip(line))
  }

  const SCRIPT_STARTS: set<string> := {"postrotate", "prerotate", "firstaction", "lastaction", "preremove"}
  const SCRIPT_END := "endscript"

  /** Whether a writer script is open after a word that may open or close one. */
  function ScriptAfter(word: string, inScript: bool): bool {
    if word in SCRIPT_STARTS then true else if word == SCRIPT_END then false else inScript
  }

  // ---- Scanning ------------------------------------------------------------------------------------

  /** One stanza or one line outside all stanzas, with the lines it was read from. */
  datatype Item = Plain(line: string) | Stanza(lines: seq<string>, header: seq<string>, body: seq<string>)
  {
    function Source(): seq<string> {
      if Plain? then [line] else lines
    }
  }

  datatype Scanned<T> = Read(value: T) | Ambiguous

  /**
   The shell-like splitting of a header into its words (None when it has an unclosed quote), and the quoting of a
   word that has blanks in it.
   */
  datatype Tokenizer = Tokenizer(split: string -> Option<seq<string>>, quote: string -> string)

  /** What the scanner looks at in a body line. */
  function Inner(line: string): string {
    Strip(StripComment(line))
  }

  /** How many lines a stanza's body takes up to its closing brace; fails on nesting or when it is never closed. */
  function BodyLength(lines: seq<string>, inScript: bool): (r: Scanned<nat>)
    ensures r.Read? ==> r.value < |lines|
  {
    if lines == [] then Ambiguous
    else
      var inner := Inner(lines[0]);
      if !inScript && inner == "}" then Read(0)
      else if !inScript && ('{' in inner || '}' in inner) then Ambiguous
      else
        var rest := BodyLength(lines[1..], ScriptAfter(inner, inScript));
        if rest.Read? then Read(rest.value + 1) else Ambiguous
  }

  function Bodies(lines: seq<string>): (r: seq<string>)
    ensures |r| == |lines|
  {
    if lines == [] then [] else [ChopNewlines(lines[0])] + Bodies(lines[1..])
  }

  /** The first item of some lines. */
  function FirstItem(t: Tokenizer, lines: seq<string>): (r: Scanned<Item>)
    requires lines != []
    ensures r.Read? ==> r.value.Source() != [] && r.value.Source() <= lines
  {
    var stripped := StripComment(lines[0]);
    if '{' !in stripped then Read(Plain(lines[0]))
    else
      var headerText := Before(stripped, '{');
      var header := t.split(headerText);
      if header.None? || header.value == [] || Strip(stripped[|headerText| + 1..]) != "" then Ambiguous
      else
        var length := BodyLength(lines[1..], false);
        if length.Ambiguous? then Ambiguous
        else Read(Stanza(lines[..length.value + 2], header.value, Bodies(lines[1..length.value + 1])))
  }

  function Items(t: Tokenizer, lines: seq<string>): Scanned<seq<Item>>
    decreases |lines|
  {
    if lines == [] then Read([])
    else
      var first := FirstItem(t, lines);
      if first.Ambiguous? then Ambiguous
      else
        var rest := Items(t, lines[|first.value.Source()|..]);
        if rest.Ambiguous? then Ambiguous else Read([first.value] + rest.value)
  }

  /** The lines items were read from. */
  function SourceOf(items: seq<Item>): seq<string> {
    if items == [] then [] else items[0].Source() + SourceOf(items[1..])
  }

  lemma {:induction false} ItemsCover(t: Tokenizer, lines: seq<string>)
    ensures Items(t, lines).Read? ==> SourceOf(Items(t, lines).value) == lines
    decreases |lines|
  {
    hide FirstItem;
    if lines != [] && Items(t, lines).Read? {
      var first := FirstItem(t, lines).value;
      ItemsCover(t, lines[|first.Source()|..]);
      var items := Items(t, lines).value;
      assert items[1..] == Items(t, lines[|first.Source()|..]).value;
    }
  }

  /** What a stanza's body takes does not depend on what follows its closing brace. */
  lemma {:induction false} BodyIsLocal(lines: seq<string>, other: seq<string>, inScript: bool)
    requires BodyLength(lines, inScript).Read?
    ensures var n := BodyLength(lines, inScript).value;
      BodyLength(lines[..n + 1] + other, inScript) == Read(n)
  {
    var n := BodyLength(lines, inScript).value;
    var cut := lines[..n + 1] + other;
    var inner := Inner(lines[0]);
    assert cut[0] == lines[0];
    if !(!inScript && inner == "}") {
      BodyIsLocal(lines[1..], other, ScriptAfter(inner, inScript));
      assert cut[1..] == lines[1..][..n] + other;
    }
  }

  /** An item reads the same whatever follows it. */
  lemma ItemIsLocal(t: Tokenizer, lines: seq<string>, other: seq<string>)
    requires lines != [] && FirstItem(t, lines).Read?
    ensures var item := FirstItem(t, lines).value;
      item.Source() + other != [] && FirstItem(t, item.Source() + other) == Read(item)
  {
    hide Strip, StripComment, Bodies;
    var item := FirstItem(t, lines).value;
    if item.Stanza? {
      var n := BodyLength(lines[1..], false).value;
      BodyIsLocal(lines[1..], other, false);
      var again := item.lines + other;
      assert again[1..] == lines[1..][..n + 1] + other;
      assert again[..n + 2] == item.lines;
      assert again[1..n + 1] == lines[1..n + 1];
    }
  }

  // ---- Stanzas and their spans ---------------------------------------------------------------------

  /** A stanza as the scanner reports it: its words, its body, and the stretch of text it was read from. */
  datatype Block = Block(header: seq<string>, body: seq<string>, start: nat, end: nat)

  function TextOf(item: Item): string {
    Concat(item.Source())
  }

  function Text(items: seq<Item>): string {
    if items == [] then "" else TextOf(items[0]) + Text(items[1..])
  }

  lemma {:induction false} ConcatAppend(a: seq<string>, b: seq<string>)
    ensures Concat(a + b) == Concat(a) + Concat(b)
  {
    if a == [] {
      assert a + b == b;
    } else {
      ConcatAppend(a[1..], b);
      assert (a + b)[1..] == a[1..] + b;
      assert (a + b)[0] == a[0];
    }
  }

  lemma {:induction false} TextIsConcat(items: seq<Item>)
    ensures Text(items) == Concat(SourceOf(items))
  {
    hide Concat;
    if items == [] {
      ConcatNothing();
    } else {
      TextIsConcat(items[1..]);
      ConcatAppend(items[0].Source(), SourceOf(items[1..]));
    }
  }

  lemma ConcatNothing()
    ensures Concat([]) == ""
  {
  }

  /** The block of a selected stanza. */
  function BlockOf(item: Item, select: Item -> bool, start: nat): seq<Block> {
    if item.Stanza? && select(item) then [Block(item.header, item.body, start, start + |TextOf(item)|)] else []
  }

  /** The blocks of the selected stanzas. */
  function BlocksOf(items: seq<Item>, select: Item -> bool, offset: nat): seq<Block> {
    if items == [] then []
    else
      BlockOf(items[0], select, offset) + BlocksOf(items[1..], select, offset + |TextOf(items[0])|)
  }

  /** Items read from lines hold some text each. */
  predicate Solid(items: seq<Item>) {
    forall i <- items :: TextOf(i) != ""
  }

  /** Spans that follow one another without overlap between two offsets. */
  predicate Ordered(blocks: seq<Block>, lo: nat, hi: nat) {
    if blocks == [] then lo <= hi
    else lo <= blocks[0].start < blocks[0].end && Ordered(blocks[1..], blocks[0].end, hi)
  }

  lemma OrderedFrom(blocks: seq<Block>, lower: nat, lo: nat, hi: nat)
    requires lower <= lo && Ordered(blocks, lo, hi)
    ensures Ordered(blocks, lower, hi)
  {
  }

  lemma {:induction false} SpansOrdered(items: seq<Item>, select: Item -> bool, offset: nat)
    requires Solid(items)
    ensures Ordered(BlocksOf(items, select, offset), offset, offset + |Text(items)|)
  {
    hide TextOf;
    if items != [] {
      var end := offset + |TextOf(items[0])|;
      assert items[0] in items;
      SpansOrdered(items[1..], select, end);
      var rest := BlocksOf(items[1..], select, end);
      hide BlocksOf, Solid, Text;
      assert items == [items[0]] + items[1..];
      BlocksFirst(items[0], items[1..], select, offset);
      TextUnfolds(items[0], items[1..]);
      if items[0].Stanza? && select(items[0]) {
        assert BlocksOf(items, select, offset)[1..] == rest;
      } else {
        assert BlocksOf(items, select, offset) == rest;
        OrderedFrom(rest, offset, end, offset + |Text(items)|);
      }
    }
  }

  /** Each span starts where a line starts and holds exactly its stanza's lines. */
  lemma {:induction false} SpansAreStanzas(pre: string, items: seq<Item>, select: Item -> bool, b: Block)
    requires b in BlocksOf(items, select, |pre|)
    ensures exists k: nat :: k < |items| && SpanOf(pre, items, k, b)
    decreases |items|
  {
    hide TextOf;
    var first := pre + TextOf(items[0]);
    if !(items[0].Stanza? && select(items[0]) && b == BlocksOf(items, select, |pre|)[0]) {
      SpansAreStanzas(first, items[1..], select, b);
      var k: nat :| k < |items[1..]| && SpanOf(first, items[1..], k, b);
      assert items[1..][..k] == items[1..k + 1];
      TextFirst(items, k + 1);
      assert SpanOf(pre, items, k + 1, b);
    } else {
      assert SpanOf(pre, items, 0, b);
    }
  }

  predicate SpanOf(pre: string, items: seq<Item>, k: nat, b: Block)
    requires k < |items|
  {
    && items[k].Stanza? && b.header == items[k].header && b.body == items[k].body
    && b.start == |pre| + |Text(items[..k])| && b.end == b.start + |TextOf(items[k])|
  }

  lemma TextFirst(items: seq<Item>, k: nat)
    requires 0 < k <= |items|
    ensures Text(items[..k]) == TextOf(items[0]) + Text(items[1..k])
  {
    hide TextOf;
    assert items[..k][1..] == items[1..k];
  }

  // ---- Cutting stanzas out -------------------------------------------------------------------------

  function Kept(items: seq<Item>, drop: Item -> bool): seq<Item> {
    if items == [] then [] else (if drop(items[0]) then [] else [items[0]]) + Kept(items[1..], drop)
  }

  /** Cut the spans of the blocks out of a text, from the last to the first. */
  function Cut(text: string, blocks: seq<Block>): Option<string>
    decreases |blocks|
  {
    if blocks == [] then Some(text)
    else
      var last := blocks[|blocks| - 1];
      if last.start <= last.end <= |text| then
        Cut(text[..last.start] + text[last.end..], blocks[..|blocks| - 1])
      else None
  }

  /** The loop over the blocks in descending order of their starts. */
  method NpmRemainingContent(text: string, blocks: seq<Block>) returns (remaining: Option<string>)
    ensures remaining == Cut(text, blocks)
  {
    var rest := text;
    var n: nat := |blocks|;
    assert blocks[..n] == blocks;
    while n > 0
      invariant n <= |blocks| && Cut(rest, blocks[..n]) == Cut(text, blocks)
    {
      var last := blocks[n - 1];
      if !(last.start <= last.end <= |rest|) {
        return None;
      }
      assert blocks[..n][..n - 1] == blocks[..n - 1];
      rest := rest[..last.start] + rest[last.end..];
      n := n - 1;
    }
    return Some(rest);
  }

  predicate OnlyStanzas(drop: Item -> bool, items: seq<Item>) {
    forall i <- items :: drop(i) ==> i.Stanza?
  }

  /** Cutting the dropped stanzas leaves exactly the text of the items that are kept. */
  lemma {:induction false} CutKeepsTheRest(pre: string, items: seq<Item>, post: string, drop: Item -> bool)
    requires OnlyStanzas(drop, items)
    ensures Cut(pre + Text(items) + post, BlocksOf(items, drop, |pre|)) == Some(pre + Text(Kept(items, drop)) + post)
    decreases |items|
  {
    hide TextOf, Cut;
    if items == [] {
      CutNothing(pre + Text(items) + post);
    } else {
      var init, last := items[..|items| - 1], items[|items| - 1];
      assert items == init + [last];
      assert OnlyStanzas(drop, init) && last in items;
      if drop(last) {
        CutKeepsTheRest(pre, init, post, drop);
        CutDropped(pre, init, last, post, drop);
      } else {
        CutKeepsTheRest(pre, init, TextOf(last) + post, drop);
        CutPassed(pre, init, last, post, drop);
      }
    }
  }

  lemma CutDropped(pre: string, init: seq<Item>, last: Item, post: string, drop: Item -> bool)
    requires last.Stanza? && drop(last)
    requires Cut(pre + Text(init) + post, BlocksOf(init, drop, |pre|)) == Some(pre + Text(Kept(init, drop)) + post)
    ensures var items := init + [last];
      Cut(pre + Text(items) + post, BlocksOf(items, drop, |pre|)) == Some(pre + Text(Kept(items, drop)) + post)
  {
    hide TextOf, Cut, Text, Kept, BlocksOf;
    var middle := TextOf(last);
    TextAppend(init, last);
    KeptAppend(init, last, drop);
    BlocksAppend(init, last, drop, |pre|);
    assert pre + (Text(init) + middle) + post == pre + Text(init) + (middle + post);
    Slices(pre + Text(init), middle, post);
    var block := Block(last.header, last.body, |pre| + |Text(init)|, |pre| + |Text(init)| + |middle|);
    CutLast(pre + Text(init) + (middle + post), pre + Text(init), post, BlocksOf(init, drop, |pre|), block);
    assert Kept(init + [last], drop) == Kept(init, drop);
  }

  lemma CutPassed(pre: string, init: seq<Item>, last: Item, post: string, drop: Item -> bool)
    requires !drop(last)
    requires Cut(pre + Text(init) + (TextOf(last) + post), BlocksOf(init, drop, |pre|))
      == Some(pre + Text(Kept(init, drop)) + (TextOf(last) + post))
    ensures var items := init + [last];
      Cut(pre + Text(items) + post, BlocksOf(items, drop, |pre|)) == Some(pre + Text(Kept(items, drop)) + post)
  {
    hide TextOf, Cut, Text, Kept, BlocksOf;
    TextPassed(pre, init, last, post);
    KeptPassed(pre, init, last, post, drop);
    BlocksPassed(init, last, drop, |pre|);
  }

  lemma KeptPassed(pre: string, init: seq<Item>, last: Item, post: string, drop: Item -> bool)
    requires !drop(last)
    ensures pre + Text(Kept(init + [last], drop)) + post == pre + Text(Kept(init, drop)) + (TextOf(last) + post)
  {
    hide TextOf, Text, Kept;
    KeptAppend(init, last, drop);
    TextPassed(pre, Kept(init, drop), last, post);
  }

  lemma BlocksPassed(init: seq<Item>, last: Item, select: Item -> bool, offset: nat)
    requires !select(last)
    ensures BlocksOf(init + [last], select, offset) == BlocksOf(init, select, offset)
  {
    hide TextOf, Text, BlocksOf;
    BlocksAppend(init, last, select, offset);
  }

  lemma TextPassed(pre: string, init: seq<Item>, last: Item, post: string)
    ensures pre + Text(init + [last]) + post == pre + Text(init) + (TextOf(last) + post)
  {
    hide TextOf, Text;
    TextAppend(init, last);
    Regroup(pre, Text(init), TextOf(last), post);
  }

  lemma Regroup(a: string, b: string, c: string, d: string)
    ensures a + b + (c + d) == a + (b + c) + d
  {
  }

  lemma CutNothing(text: string)
    ensures Cut(text, []) == Some(text)
  {
  }

  lemma CutLast(text: string, before: string, after: string, blocks: seq<Block>, last: Block)
    requires last.start <= last.end <= |text| && text[..last.start] == before && text[last.end..] == after
    ensures Cut(text, blocks + [last]) == Cut(before + after, blocks)
  {
    hide Cut;
    var all := blocks + [last];
    assert all[..|all| - 1] == blocks && all[|all| - 1] == last;
    CutOne(text, all);
  }

  lemma Slices(before: string, middle: string, after: string)
    ensures var text := before + (middle + after);
      text[..|before|] == before && text[|before| + |middle|..] == after
  {
  }

  lemma CutOne(text: string, blocks: seq<Block>)
    requires blocks != []
    ensures var last := blocks[|blocks| - 1];
      last.start <= last.end <= |text| ==>
        Cut(text, blocks) == Cut(text[..last.start] + text[last.end..], blocks[..|blocks| - 1])
  {
  }

  lemma {:induction false} TextAppend(items: seq<Item>, last: Item)
    ensures Text(items + [last]) == Text(items) + TextOf(last)
  {
    hide TextOf;
    if items == [] {
      assert [last][1..] == [];
    } else {
      TextAppend(items[1..], last);
      assert (items + [last])[1..] == items[1..] + [last];
    }
  }

  lemma {:induction false} KeptAppend(items: seq<Item>, last: Item, drop: Item -> bool)
    ensures Kept(items + [last], drop) == Kept(items, drop) + (if drop(last) then [] else [last])
  {
    if items == [] {
      assert [last][1..] == [];
    } else {
      KeptAppend(items[1..], last, drop);
      assert (items + [last])[1..] == items[1..] + [last];
    }
  }

  lemma {:induction false} BlocksAppend(items: seq<Item>, last: Item, select: Item -> bool, offset: nat)
    ensures var at := offset + |Text(items)|;
      BlocksOf(items + [last], select, offset)
      == BlocksOf(items, select, offset)
         + BlockOf(last, select, at)
    decreases |items|, 1
  {
    hide TextOf;
    if items == [] {
      assert [last][1..] == [];
    } else {
      assert items == [items[0]] + items[1..];
      BlocksAppendStep(items[0], items[1..], last, select, offset);
    }
  }

  lemma {:induction false} BlocksAppendStep(first: Item, rest: seq<Item>, last: Item, select: Item -> bool, offset: nat)
    ensures var items := [first] + rest;
      var at := offset + |Text(items)|;
      BlocksOf(items + [last], select, offset)
      == BlocksOf(items, select, offset)
         + BlockOf(last, select, at)
    decreases |rest| + 1, 0
  {
    hide TextOf, BlocksOf, BlockOf, Text;
    var items := [first] + rest;
    TextUnfolds(first, rest);
    BlocksAppend(rest, last, select, offset + |TextOf(first)|);
    assert items + [last] == [first] + (rest + [last]);
    BlocksFirst(first, rest, select, offset);
    BlocksFirst(first, rest + [last], select, offset);
  }

  lemma TextUnfolds(first: Item, rest: seq<Item>)
    ensures Text([first] + rest) == TextOf(first) + Text(rest)
  {
    hide TextOf;
    assert ([first] + rest)[1..] == rest;
  }

  lemma BlocksFirst(first: Item, rest: seq<Item>, select: Item -> bool, offset: nat)
    ensures var end := offset + |TextOf(first)|;
      BlocksOf([first] + rest, select, offset)
      == BlockOf(first, select, offset) + BlocksOf(rest, select, end)
  {
    hide TextOf, BlockOf;
    assert ([first] + rest)[1..] == rest;
  }

  /** The kept items read back as themselves. */
  lemma {:induction false} RescanKept(t: Tokenizer, lines: seq<string>, drop: Item -> bool)
    requires Items(t, lines).Read?
    ensures Items(t, SourceOf(Kept(Items(t, lines).value, drop))) == Read(Kept(Items(t, lines).value, drop))
    decreases |lines|
  {
    hide FirstItem;
    if lines != [] {
      var first := FirstItem(t, lines).value;
      var rest := lines[|first.Source()|..];
      var items := Items(t, lines).value;
      assert items[1..] == Items(t, rest).value;
      RescanKept(t, rest, drop);
      if !drop(first) {
        var others := Kept(Items(t, rest).value, drop);
        ItemIsLocal(t, lines, SourceOf(others));
        KeptFirst(first, others);
        assert (first.Source() + SourceOf(others))[|first.Source()|..] == SourceOf(others);
        assert Kept(items, drop) == [first] + others;
      } else {
        assert Kept(items, drop) == Kept(Items(t, rest).value, drop);
      }
    }
  }

  lemma KeptFirst(first: Item, others: seq<Item>)
    ensures SourceOf([first] + others) == first.Source() + SourceOf(others)
  {
    assert ([first] + others)[1..] == others;
  }

  // ---- The text after the cut ----------------------------------------------------------------------

  predicate AllEnded(lines: seq<string>) {
    forall l <- lines :: IsLine(l) && Ended(l)
  }

  lemma CanonicalParts(a: seq<string>, b: seq<string>)
    requires Canonical(a + b)
    ensures Canonical(b) && (b != [] ==> AllEnded(a)) && Canonical(a)
  {
    var all := a + b;
    forall i | 0 <= i < |b|
      ensures IsLine(b[i]) && (i < |b| - 1 ==> Ended(b[i]))
    {
      assert all[|a| + i] == b[i] && b[i] in all;
    }
    forall i | 0 <= i < |a|
      ensures IsLine(a[i]) && (i < |all| - 1 ==> Ended(a[i]))
    {
      assert all[i] == a[i] && a[i] in all;
    }
  }

  lemma CanonicalJoin(a: seq<string>, b: seq<string>)
    requires AllEnded(a) && Canonical(b)
    ensures Canonical(a + b)
  {
  }

  /** Dropping items from canonical lines leaves canonical lines. */
  lemma {:induction false} KeptCanonical(items: seq<Item>, drop: Item -> bool)
    requires Canonical(SourceOf(items))
    ensures Canonical(SourceOf(Kept(items, drop)))
    ensures SourceOf(items) == [] ==> SourceOf(Kept(items, drop)) == []
  {
    hide Canonical, AllEnded;
    if items == [] {
    } else {
      var first, rest := items[0].Source(), SourceOf(items[1..]);
      CanonicalParts(first, rest);
      KeptCanonical(items[1..], drop);
      var others := Kept(items[1..], drop);
      if drop(items[0]) {
        assert Kept(items, drop) == others;
      } else {
        KeptFirst(items[0], others);
        if rest == [] {
          assert first + [] == first;
        } else {
          CanonicalJoin(first, SourceOf(others));
        }
        assert Kept(items, drop) == [items[0]] + others;
      }
    }
  }

  /**
   Cutting commutes with scanning: cutting selected stanzas out of a text keeps exactly the bytes outside their
   spans, and scanning what is left yields exactly the other items, headers and bodies unchanged.
   */
  lemma CutCommutesWithScan(t: Tokenizer, text: string, drop: Item -> bool)
    requires Items(t, Lines(text)).Read? && OnlyStanzas(drop, Items(t, Lines(text)).value)
    ensures var items := Items(t, Lines(text)).value;
      var cut := Cut(text, BlocksOf(items, drop, 0));
      && cut == Some(Text(Kept(items, drop)))
      && Items(t, Lines(cut.value)) == Read(Kept(items, drop))
  {
    hide *;
    var items := Items(t, Lines(text)).value;
    LinesCanonical(text);
    ItemsCover(t, Lines(text));
    TextIsConcat(items);
    assert "" + Text(items) + "" == text;
    CutKeepsTheRest("", items, "", drop);
    assert "" + Text(Kept(items, drop)) + "" == Text(Kept(items, drop));
    RescanKept(t, Lines(text), drop);
    KeptCanonical(items, drop);
    TextIsConcat(Kept(items, drop));
    LinesOfConcat(SourceOf(Kept(items, drop)));
  }

  // ---- The scanner's loops -------------------------------------------------------------------------

  function AnyStanza(): Item -> bool {
    (i: Item) => true
  }

  function ScanBlocks(t: Tokenizer, text: string): Scanned<seq<Block>> {
    var items := Items(t, Lines(text));
    if items.Read? then Read(BlocksOf(items.value, AnyStanza(), 0)) else Ambiguous
  }

  /** Scan a stanza's body up to its closing brace. */
  method ScanBody(lines: seq<string>, start: nat) returns (closed: bool, cursor: nat, body: seq<string>)
    requires start <= |lines|
    ensures closed == BodyLength(lines[start..], false).Read?
    ensures closed ==>
      && start <= cursor < |lines| && cursor == start + BodyLength(lines[start..], false).value
      && body == Bodies(lines[start..cursor])
  {
    body, cursor := [], start;
    var inScript := false;
    while cursor < |lines|
      invariant start <= cursor <= |lines| && body == Bodies(lines[start..cursor])
      invariant var all, rest := BodyLength(lines[start..], false), BodyLength(lines[cursor..], inScript);
        all.Read? == rest.Read? && (rest.Read? ==> all.value == cursor - start + rest.value)
    {
      var inner := Inner(lines[cursor]);
      assert lines[cursor..][0] == lines[cursor] && lines[cursor..][1..] == lines[cursor + 1..];
      if !inScript && inner == "}" {
        return true, cursor, body;
      }
      if !inScript && ('{' in inner || '}' in inner) {
        return false, cursor, body;
      }
      BodiesAppend(lines[start..cursor], lines[cursor]);
      assert lines[start..cursor] + [lines[cursor]] == lines[start..cursor + 1];
      body := body + [ChopNewlines(lines[cursor])];
      inScript := ScriptAfter(inner, inScript);
      cursor := cursor + 1;
    }
    closed := false;
  }

  lemma {:induction false} BodiesAppend(lines: seq<string>, last: string)
    ensures Bodies(lines + [last]) == Bodies(lines) + [ChopNewlines(last)]
  {
    hide ChopNewlines;
    if lines == [] {
      assert [last][1..] == [];
    } else {
      BodiesAppend(lines[1..], last);
      assert (lines + [last])[1..] == lines[1..] + [last];
    }
  }

  /** Read the item at one line: a line outside all stanzas, or a whole stanza. */
  method ScanItem(t: Tokenizer, lines: seq<string>, index: nat) returns (r: Scanned<Item>)
    requires index < |lines|
    ensures r == FirstItem(t, lines[index..])
  {
    hide BodyLength, Bodies, Strip, StripComment, Before;
    ghost var rest := lines[index..];
    assert rest[0] == lines[index] && rest[1..] == lines[index + 1..];
    var stripped := StripComment(lines[index]);
    if '{' !in stripped {
      return Read(Plain(lines[index]));
    }
    var headerText := Before(stripped, '{');
    var header := t.split(headerText);
    if header.None? || header.value == [] || Strip(stripped[|headerText| + 1..]) != "" {
      return Ambiguous;
    }
    var closed, cursor, body := ScanBody(lines, index + 1);
    if !closed {
      return Ambiguous;
    }
    assert rest[..cursor + 1 - index] == lines[index..cursor + 1];
    assert rest[1..cursor - index] == lines[index + 1..cursor];
    r := Read(Stanza(lines[index..cursor + 1], header.value, body));
  }

  /** What has been scanned, followed by what the remaining lines hold, is everything. */
  ghost predicate SoFar(t: Tokenizer, lines: seq<string>, index: nat, done: seq<Item>)
    requires index <= |lines|
  {
    var all, rest := Items(t, lines), Items(t, lines[index..]);
    all.Read? == rest.Read? && (rest.Read? ==> all.value == done + rest.value)
  }

  lemma SoFarStep(t: Tokenizer, lines: seq<string>, index: nat, done: seq<Item>)
    requires index < |lines| && SoFar(t, lines, index, done)
    ensures var first := FirstItem(t, lines[index..]);
      && (first.Ambiguous? ==> Items(t, lines).Ambiguous?)
      && (first.Read? ==>
            var next := index + |first.value.Source()|;
            index < next <= |lines| && SoFar(t, lines, next, done + [first.value]))
  {
    hide FirstItem;
    var rest := lines[index..];
    var first := FirstItem(t, rest);
    if first.Read? {
      assert rest[|first.value.Source()|..] == lines[index + |first.value.Source()|..];
      var tail := Items(t, lines[index + |first.value.Source()|..]);
      if tail.Read? {
        assert done + ([first.value] + tail.value) == (done + [first.value]) + tail.value;
      }
    }
  }

  lemma SoFarEnds(t: Tokenizer, lines: seq<string>, done: seq<Item>)
    requires SoFar(t, lines, |lines|, done)
    ensures Items(t, lines) == Read(done)
  {
    assert lines[|lines|..] == [] && done + [] == done;
  }

  lemma SoFarStarts(t: Tokenizer, lines: seq<string>)
    ensures SoFar(t, lines, 0, [])
  {
    assert lines[0..] == lines;
    var all := Items(t, lines);
    if all.Read? {
      assert [] + all.value == all.value;
    }
  }

  /** The scanner: one pass over the lines, with the offset each line starts at. */
  method ScanLogrotateBlocks(t: Tokenizer, text: string) returns (r: Scanned<seq<Block>>)
    ensures r == ScanBlocks(t, text)
  {
    hide FirstItem, TextOf, SoFar, Items, Lines;
    var lines := Lines(text);
    var index, offset := 0, 0;
    var blocks: seq<Block> := [];
    ghost var done: seq<Item> := [];
    SoFarStarts(t, lines);
    while index < |lines|
      invariant index <= |lines| && SoFar(t, lines, index, done)
      invariant offset == |Text(done)| && blocks == BlocksOf(done, AnyStanza(), 0)
    {
      SoFarStep(t, lines, index, done);
      var scanned := ScanItem(t, lines, index);
      if scanned.Ambiguous? {
        return Ambiguous;
      }
      var item := scanned.value;
      BlocksAppend(done, item, AnyStanza(), 0);
      TextAppend(done, item);
      if item.Stanza? {
        blocks := blocks + [Block(item.header, item.body, offset, offset + |TextOf(item)|)];
      }
      offset := offset + |TextOf(item)|;
      index := index + |item.Source()|;
      done := done + [item];
    }
    SoFarEnds(t, lines, done);
    r := Read(blocks);
  }
}
