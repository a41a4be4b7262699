/**
 The inventory file: what the reader sees in a section, and the line editor that must agree with it. Lines are
 held without their newlines.
 */
module Inventory {
  import opened LogEntry
  import opened Strings

  // ---- Lines ---------------------------------------------------------------------------------------

  datatype Kind = Skipped | Head(section: string) | HostEntry

  /** Drop square brackets at both ends. */
  function UnBracket(s: string): string {
    if s != "" && (s[0] == '[' || s[0] == ']') then UnBracket(s[1..])
    else if s != "" && (s[|s| - 1] == '[' || s[|s| - 1] == ']') then UnBracket(s[..|s| - 1])
    else s
  }

  predicate IsComment(stripped: string) {
    stripped == "" || stripped[0] == '#' || stripped[0] == ';'
  }

  /** What the reader takes a line for. */
  function ReaderKind(line: string): Kind {
    var s := Strip(line);
    if IsComment(s) then Skipped
    else if s[0] == '[' then Head(UnBracket(s))
    else HostEntry
  }

  /** What the editor takes a line for: only `[name]` without further brackets is a header. */
  function EditorKind(line: string): Kind {
    var s := Strip(line);
    if |s| >= 3 && s[0] == '[' && s[|s| - 1] == ']' && ']' !in s[1..|s| - 1] then Head(s[1..|s| - 1])
    else if IsComment(s) then Skipped
    else HostEntry
  }

  /** A line both take for the same thing. */
  predicate Clean(line: string) {
    ReaderKind(line) == EditorKind(line)
  }

  /** The words of a line. */
  function Words(s: string): seq<string> {
    if s == "" then []
    else if IsSpace(s[0]) then Words(s[1..])
    else
      var n := WordLength(s);
      [s[..n]] + Words(s[n..])
  }

  function WordLength(s: string): (n: nat)
    requires s != "" && !IsSpace(s[0])
    ensures 1 <= n <= |s| && (forall i :: 0 <= i < n ==> !IsSpace(s[i])) && (n < |s| ==> IsSpace(s[n]))
  {
    if |s| == 1 || IsSpace(s[1]) then 1 else 1 + WordLength(s[1..])
  }

  // ---- Variables -----------------------------------------------------------------------------------

  type Vars = map<string, string>

  /** The last equals sign with something on both sides; the reader's pattern is greedy. */
  function SplitAt(word: string, i: nat): Option<nat>
    requires i <= |word|
  {
    if i == 0 then None
    else if 0 < i - 1 < |word| - 1 && word[i - 1] == '=' then Some(i - 1)
    else SplitAt(word, i - 1)
  }

  function ParsePair(word: string): Option<(string, string)> {
    var at := SplitAt(word, |word|);
    if at.None? || at.value >= |word| then None else Some((word[..at.value], word[at.value + 1..]))
  }

  /** Later pairs win. */
  function ParseVars(words: seq<string>): Vars {
    if words == [] then map[]
    else
      var n := |words| - 1;
      var pair := ParsePair(words[n]);
      if pair.None? then ParseVars(words[..n]) else ParseVars(words[..n])[pair.value.0 := pair.value.1]
  }

  /** The host a line names, and its variables. */
  function HostOf(line: string): (string, Vars) {
    var words := Words(line);
    if words == [] then ("", map[]) else (words[0], ParseVars(words[1..]))
  }

  function Pair(key: string, value: string): string {
    key + "=" + value
  }

  lemma {:induction false} SplitSkips(word: string, i: nat, at: nat)
    requires 0 < at < i <= |word| && at < |word| - 1 && word[at] == '='
    requires forall j :: at < j < i && j < |word| - 1 ==> word[j] != '='
    ensures SplitAt(word, i) == Some(at)
    decreases i
  {
    if i - 1 != at {
      SplitSkips(word, i - 1, at);
    }
  }

  /**
   A written pair reads back as itself exactly when its value has no equals sign but perhaps as its last character.
   */
  lemma PairReadsBack(key: string, value: string)
    requires key != "" && value != ""
    ensures ParsePair(Pair(key, value)) == Some((key, value)) <==> '=' !in value[..|value| - 1]
  {
    var word := Pair(key, value);
    var n := |key|;
    assert word[n] == '=' && word[..n] == key && word[n + 1..] == value;
    if '=' !in value[..|value| - 1] {
      forall j | n < j < |word| - 1
        ensures word[j] != '='
      {
        assert word[j] == value[..|value| - 1][j - n - 1];
      }
      SplitSkips(word, |word|, n);
    } else {
      var j :| 0 <= j < |value| - 1 && value[..|value| - 1][j] == '=';
      assert word[n + 1 + j] == '=';
      SplitIsLast(word, |word|, n + 1 + j);
    }
  }

  lemma {:induction false} SplitIsLast(word: string, i: nat, at: nat)
    requires 0 < at < i <= |word| && at < |word| - 1 && word[at] == '='
    ensures SplitAt(word, i).Some? && at <= SplitAt(word, i).value < |word|
    decreases i
  {
    if i - 1 != at {
      SplitIsLast(word, i - 1, at);
    }
  }

  // ---- Reading a section ---------------------------------------------------------------------------

  /** The hosts of a section, from lines met inside or outside it. */
  function HostsIn(lines: seq<string>, section: string, inside: bool): seq<(string, Vars)> {
    if lines == [] then []
    else
      match ReaderKind(lines[0])
      case Skipped => HostsIn(lines[1..], section, inside)
      case Head(name) => HostsIn(lines[1..], section, name == section)
      case HostEntry => (if inside then [HostOf(lines[0])] else []) + HostsIn(lines[1..], section, inside)
  }

  /** Whether the section is open after some lines. */
  function InsideAfter(lines: seq<string>, section: string, inside: bool): bool {
    if lines == [] then inside
    else
      match ReaderKind(lines[0])
      case Head(name) => InsideAfter(lines[1..], section, name == section)
      case _ => InsideAfter(lines[1..], section, inside)
  }

  function Hosts(lines: seq<string>, section: string): seq<(string, Vars)> {
    HostsIn(lines, section, false)
  }

  method IterSection(lines: seq<string>, section: string) returns (hosts: seq<(string, Vars)>)
    ensures hosts == Hosts(lines, section)
  {
    hide ReaderKind, HostOf;
    hosts := [];
    var inside := false;
    for i := 0 to |lines|
      invariant Hosts(lines, section) == hosts + HostsIn(lines[i..], section, inside)
    {
      assert lines[i..][0] == lines[i] && lines[i..][1..] == lines[i + 1..];
      match ReaderKind(lines[i]) {
        case Skipped =>
        case Head(name) =>
          inside := name == section;
        case HostEntry =>
          if inside {
            hosts := hosts + [HostOf(lines[i])];
          }
      }
    }
    assert lines[|lines|..] == [];
  }

  lemma {:induction false} HostsAppend(a: seq<string>, b: seq<string>, section: string, inside: bool)
    ensures HostsIn(a + b, section, inside)
        == HostsIn(a, section, inside) + HostsIn(b, section, InsideAfter(a, section, inside))
    ensures InsideAfter(a + b, section, inside) == InsideAfter(b, section, InsideAfter(a, section, inside))
  {
    hide ReaderKind, HostOf;
    if a == [] {
      assert a + b == b;
    } else {
      assert (a + b)[1..] == a[1..] + b;
      match ReaderKind(a[0])
      case Skipped =>
        HostsAppend(a[1..], b, section, inside);
      case Head(name) =>
        HostsAppend(a[1..], b, section, name == section);
      case HostEntry =>
        HostsAppend(a[1..], b, section, inside);
    }
  }

  function Names(hosts: seq<(string, Vars)>): set<string> {
    set h <- hosts :: h.0
  }

  // ---- Where a host goes ---------------------------------------------------------------------------

  /** Both readers of the file see the same lines, and no section is opened twice. */
  predicate Tidy(lines: seq<string>) {
    && (forall l <- lines :: Clean(l))
    && forall i, j :: 0 <= i < j < |lines| && ReaderKind(lines[i]).Head? ==>
         ReaderKind(lines[j]) != ReaderKind(lines[i])
  }

  /** The section is open at the insertion point, and nothing after it belongs to the section. */
  predicate Insertion(lines: seq<string>, group: string, at: Option<nat>) {
    if at.None? then forall l <- lines :: ReaderKind(l) != Head(group)
    else
      && 0 < at.value <= |lines|
      && InsideAfter(lines[..at.value], group, false)
      && HostsIn(lines[at.value..], group, true) == []
  }

  /** What one more line does to the insertion point while the section, once found, is open. */
  function NextInsertion(kind: Kind, group: string, at: Option<nat>, n: nat): Option<nat> {
    if (at.None? && kind == Head(group)) || (at.Some? && kind == HostEntry) then Some(n + 1) else at
  }

  lemma InsertionStep(before: seq<string>, line: string, group: string, at: Option<nat>)
    requires Insertion(before, group, at) && (at.Some? ==> InsideAfter(before, group, false) && !ReaderKind(line).Head?)
    ensures var next := NextInsertion(ReaderKind(line), group, at, |before|);
      && Insertion(before + [line], group, next)
      && (next.Some? ==> InsideAfter(before + [line], group, false))
  {
    hide ReaderKind, HostOf;
    var after := before + [line];
    HostsAppend(before, [line], group, false);
    assert [line][1..] == [];
    var next := NextInsertion(ReaderKind(line), group, at, |before|);
    if next.Some? && next.value == |after| {
      assert after[..|after|] == after && after[|after|..] == [];
    } else if at.Some? {
      HostsAppend(before[at.value..], [line], group, true);
      assert after[at.value..] == before[at.value..] + [line];
      assert after[..at.value] == before[..at.value];
    }
  }

  lemma {:induction false} NoHeadNoHosts(lines: seq<string>, group: string)
    requires forall l <- lines :: ReaderKind(l) != Head(group)
    ensures HostsIn(lines, group, false) == [] && !InsideAfter(lines, group, false)
  {
    hide ReaderKind, HostOf;
    if lines != [] {
      assert lines[0] in lines;
      NoHeadNoHosts(lines[1..], group);
    }
  }

  lemma {:induction false} OpenHasHead(lines: seq<string>, group: string)
    requires InsideAfter(lines, group, false)
    ensures exists i :: 0 <= i < |lines| && ReaderKind(lines[i]) == Head(group)
  {
    hide ReaderKind;
    if ReaderKind(lines[0]) != Head(group) {
      OpenHasHead(lines[1..], group);
      var i :| 0 <= i < |lines[1..]| && ReaderKind(lines[1..][i]) == Head(group);
      assert lines[i + 1] == lines[1..][i];
    }
  }

  /** The next header closes the section for good. */
  lemma SectionIsOver(lines: seq<string>, group: string, at: nat, i: nat)
    requires Tidy(lines) && 0 < at <= i < |lines| && ReaderKind(lines[i]).Head?
    requires Insertion(lines[..i], group, Some(at)) && InsideAfter(lines[..i], group, false)
    ensures Insertion(lines, group, Some(at))
  {
    hide ReaderKind, HostOf, Clean;
    OpenHasHead(lines[..i], group);
    var h :| 0 <= h < i && ReaderKind(lines[..i][h]) == Head(group);
    assert lines[h] == lines[..i][h];
    var rest := lines[i + 1..];
    forall l <- rest
      ensures ReaderKind(l) != Head(group)
    {
      var k :| 0 <= k < |rest| && rest[k] == l;
      assert lines[i + 1 + k] == l;
    }
    NoHeadNoHosts(rest, group);
    HostsAppend(lines[..i][at..], lines[i..], group, true);
    assert lines[at..] == lines[..i][at..] + lines[i..];
    assert lines[i..][0] == lines[i] && lines[i..][1..] == rest;
    assert lines[..i][..at] == lines[..at];
  }

  /** Where the editor puts a new line, scanning on from line `i` with the best position so far. */
  function InsertScan(lines: seq<string>, i: nat, group: string, at: Option<nat>): (r: Option<nat>)
    requires i <= |lines| && (at.Some? ==> 0 < at.value <= i)
    ensures r.Some? ==> 0 < r.value <= |lines|
    decreases |lines| - i
  {
    if i == |lines| then at
    else
      var kind := EditorKind(lines[i]);
      if kind.Head? && at.Some? then at
      else InsertScan(lines, i + 1, group, NextInsertion(kind, group, at, i))
  }

  /** After the last host of the section's block, or after its header; None when there is no such section. */
  function InsertAt(lines: seq<string>, group: string): (at: Option<nat>)
    ensures at.Some? ==> 0 < at.value <= |lines|
  {
    InsertScan(lines, 0, group, None)
  }

  method FindInsertion(lines: seq<string>, group: string) returns (at: Option<nat>)
    ensures at == InsertAt(lines, group)
  {
    hide ReaderKind, EditorKind;
    at := None;
    var inSection := false;
    var i := 0;
    while i < |lines|
      invariant i <= |lines| && (at.Some? ==> 0 < at.value <= i) && inSection == at.Some?
      invariant InsertAt(lines, group) == InsertScan(lines, i, group, at)
    {
      var kind := EditorKind(lines[i]);
      if kind.Head? && inSection {
        return;
      }
      if kind.Head? {
        inSection := kind.section == group;
        if inSection {
          at := Some(i + 1);
        }
      } else if inSection && kind.HostEntry? {
        at := Some(i + 1);
      }
      i := i + 1;
    }
  }

  /** In a tidy file the position lies in the group's block, after its last host. */
  lemma InsertionPoint(lines: seq<string>, group: string)
    requires Tidy(lines)
    ensures Insertion(lines, group, InsertAt(lines, group))
  {
    NothingYet(lines, group);
    InsertionScan(lines, 0, group, None);
  }

  lemma {:induction false} InsertionScan(lines: seq<string>, i: nat, group: string, at: Option<nat>)
    requires Tidy(lines) && i <= |lines| && (at.Some? ==> 0 < at.value <= i)
    requires Insertion(lines[..i], group, at) && (at.Some? ==> InsideAfter(lines[..i], group, false))
    ensures Insertion(lines, group, InsertScan(lines, i, group, at))
    decreases |lines| - i
  {
    hide ReaderKind, EditorKind, HostOf, Insertion, Tidy;
    if i == |lines| {
      assert lines[..i] == lines;
    } else {
      TidyLine(lines, i);
      assert lines[..i + 1] == lines[..i] + [lines[i]];
      var kind := EditorKind(lines[i]);
      if kind.Head? && at.Some? {
        SectionIsOver(lines, group, at.value, i);
      } else {
        InsertionStep(lines[..i], lines[i], group, at);
        InsertionScan(lines, i + 1, group, NextInsertion(kind, group, at, i));
      }
    }
  }

  /** There is a position in an existing section exactly when some line opens that section. */
  lemma PositionMeansSection(lines: seq<string>, group: string)
    requires Tidy(lines)
    ensures InsertAt(lines, group).Some? <==> exists l <- lines :: ReaderKind(l) == Head(group)
  {
    InsertionPoint(lines, group);
    var at := InsertAt(lines, group);
    if at.Some? {
      OpenHasHead(lines[..at.value], group);
    }
  }

  lemma NothingYet(lines: seq<string>, group: string)
    ensures Insertion(lines[..0], group, None)
  {
  }

  lemma TidyLine(lines: seq<string>, i: nat)
    requires Tidy(lines) && i < |lines|
    ensures ReaderKind(lines[i]) == EditorKind(lines[i])
  {
    assert lines[i] in lines;
  }

  // ---- The host line -------------------------------------------------------------------------------

  predicate NameChar(c: char) {
    'a' <= c <= 'z' || 'A' <= c <= 'Z' || '0' <= c <= '9' || c == '.' || c == '_' || c == '-'
  }

  predicate ValidName(name: string) {
    name != "" && forall i :: 0 <= i < |name| ==> NameChar(name[i])
  }

  predicate ValidKey(key: string) {
    && key != "" && !('0' <= key[0] <= '9')
    && forall i :: 0 <= i < |key| ==> NameChar(key[i]) && key[i] != '.' && key[i] != '-'
  }

  predicate NoBlank(word: string) {
    word != "" && forall i :: 0 <= i < |word| ==> !IsSpace(word[i])
  }

  predicate ValidVars(vars: seq<(string, string)>) {
    && (forall v <- vars :: ValidKey(v.0) && NoBlank(v.1))
    && forall i, j :: 0 <= i < j < |vars| ==> vars[i].0 != vars[j].0
  }

  /** Values the reader takes apart as they were put together. */
  predicate Readable(vars: seq<(string, string)>) {
    forall v <- vars :: v.1 != "" && '=' !in v.1[..|v.1| - 1]
  }

  function ToVars(vars: seq<(string, string)>): Vars {
    if vars == [] then map[] else ToVars(vars[..|vars| - 1])[vars[|vars| - 1].0 := vars[|vars| - 1].1]
  }

  function Pairs(vars: seq<(string, string)>): (r: seq<string>)
    ensures |r| == |vars|
    ensures forall i :: 0 <= i < |vars| ==> r[i] == Pair(vars[i].0, vars[i].1)
  {
    seq(|vars|, i requires 0 <= i < |vars| => Pair(vars[i].0, vars[i].1))
  }

  function JoinWords(words: seq<string>): string {
    if words == [] then "" else if |words| == 1 then words[0] else words[0] + " " + JoinWords(words[1..])
  }

  function HostLine(name: string, vars: seq<(string, string)>): string {
    if vars == [] then name else name + "  " + JoinWords(Pairs(vars))
  }

  lemma {:induction false} WordAlone(word: string, rest: string)
    requires NoBlank(word) && (rest == "" || IsSpace(rest[0]))
    ensures Words(word + rest) == [word] + Words(rest)
  {
    var s := word + rest;
    WordEnds(s, |word|);
    assert s[..|word|] == word && s[|word|..] == rest;
  }

  lemma {:induction false} WordEnds(s: string, n: nat)
    requires 1 <= n <= |s| && (forall i :: 0 <= i < n ==> !IsSpace(s[i])) && (n < |s| ==> IsSpace(s[n]))
    ensures WordLength(s) == n
  {
    if n > 1 {
      WordEnds(s[1..], n - 1);
    }
  }

  lemma BlankSkips(rest: string)
    ensures Words(" " + rest) == Words(rest)
  {
    assert (" " + rest)[1..] == rest;
  }

  lemma {:induction false} JoinedWords(words: seq<string>)
    requires forall w <- words :: NoBlank(w)
    ensures Words(JoinWords(words)) == words
  {
    hide NoBlank;
    if words != [] {
      assert words[0] in words;
      if |words| == 1 {
        WordAlone(words[0], "");
        assert words[0] + "" == words[0] && Words("") == [];
      } else {
        JoinedWords(words[1..]);
        WordAlone(words[0], " " + JoinWords(words[1..]));
        BlankSkips(JoinWords(words[1..]));
        assert words[0] + (" " + JoinWords(words[1..])) == JoinWords(words);
      }
    }
  }

  lemma NamesHaveNoBlank(name: string)
    requires ValidName(name)
    ensures NoBlank(name)
  {
  }

  lemma PairHasNoBlank(key: string, value: string)
    requires ValidKey(key) && NoBlank(value)
    ensures NoBlank(Pair(key, value))
  {
  }

  /** The written line has exactly the name and the pairs as its words. */
  lemma HostLineWords(name: string, vars: seq<(string, string)>)
    requires ValidName(name) && ValidVars(vars)
    ensures Words(HostLine(name, vars)) == [name] + Pairs(vars)
  {
    hide ValidName, ValidKey, NoBlank, Words, JoinWords, Pair;
    NamesHaveNoBlank(name);
    if vars == [] {
      WordAlone(name, "");
      assert name + "" == name;
      NoWords();
    } else {
      forall w <- Pairs(vars)
        ensures NoBlank(w)
      {
        var i :| 0 <= i < |vars| && Pairs(vars)[i] == w;
        assert vars[i] in vars;
        PairHasNoBlank(vars[i].0, vars[i].1);
      }
      JoinedWords(Pairs(vars));
      var rest := JoinWords(Pairs(vars));
      BlankSkips(rest);
      BlankSkips(" " + rest);
      WordAlone(name, " " + (" " + rest));
      assert name + (" " + (" " + rest)) == name + "  " + rest;
    }
  }

  lemma NoWords()
    ensures Words("") == []
  {
  }

  lemma {:induction false} PairsReadBack(vars: seq<(string, string)>)
    requires ValidVars(vars) && Readable(vars)
    ensures ParseVars(Pairs(vars)) == ToVars(vars)
  {
    hide ValidKey, NoBlank, ParsePair, Pair;
    if vars != [] {
      var n := |vars| - 1;
      assert vars[n] in vars;
      KeyNotEmpty(vars[n].0);
      PairReadsBack(vars[n].0, vars[n].1);
      PairsReadBack(vars[..n]);
      assert Pairs(vars)[..n] == Pairs(vars[..n]);
    }
  }

  lemma KeyNotEmpty(key: string)
    requires ValidKey(key)
    ensures key != ""
  {
  }

  /** The reader gets back the name and exactly its variables. */
  lemma HostLineReadsBack(name: string, vars: seq<(string, string)>)
    requires ValidName(name) && ValidVars(vars) && Readable(vars)
    ensures HostOf(HostLine(name, vars)) == (name, ToVars(vars))
  {
    hide ValidName, ValidKey, NoBlank, Words, HostLine, ParseVars;
    HostLineWords(name, vars);
    PairsReadBack(vars);
    assert ([name] + Pairs(vars))[1..] == Pairs(vars);
  }

  /** Both take the written line for a host. */
  lemma HostLineKind(name: string, vars: seq<(string, string)>)
    requires ValidName(name)
    ensures ReaderKind(HostLine(name, vars)) == HostEntry && EditorKind(HostLine(name, vars)) == HostEntry
  {
    hide JoinWords;
    var line := HostLine(name, vars);
    assert line[0] == name[0];
    StripKeepsFirst(line);
  }

  lemma StripKeepsFirst(s: string)
    requires s != "" && !IsSpace(s[0])
    ensures Strip(s) != "" && Strip(s)[0] == s[0]
  {
    RightKeepsFirst(s);
  }

  lemma {:induction false} RightKeepsFirst(s: string)
    requires s != "" && !IsSpace(s[0])
    ensures RightStrip(s) != "" && RightStrip(s)[0] == s[0]
  {
    if IsSpace(s[|s| - 1]) {
      RightKeepsFirst(s[..|s| - 1]);
    }
  }

  // ---- Editing -------------------------------------------------------------------------------------

  const MANUAL := "manual_update_hosts"
  const AUTO_GROUPS := ["proxmox_nodes", "proxmox_vms", "remote_hosts", "custom_hosts"]
  const ADAPTER := "manual_adapter"

  datatype EditError = UnknownGroup | BadName | BadVariable | Duplicate | ManualClash | NoAdapter | NotFound

  datatype Edit = Edited(lines: seq<string>) | Refused(error: EditError)

  predicate InAuto(lines: seq<string>, name: string) {
    exists g <- AUTO_GROUPS :: name in Names(Hosts(lines, g))
  }

  function Inserted(lines: seq<string>, at: nat, line: string): seq<string>
    requires at <= |lines|
  {
    lines[..at] + [line] + lines[at..]
  }

  function NewSection(lines: seq<string>, group: string, line: string): seq<string> {
    lines + (if lines != [] && Strip(lines[|lines| - 1]) != "" then [""] else []) + ["[" + group + "]", line]
  }

  /** An inserted host is seen at the end of its section, and nowhere else. */
  lemma InsertedReads(lines: seq<string>, group: string, at: nat, line: string, section: string)
    requires Insertion(lines, group, Some(at)) && ReaderKind(line) == HostEntry
    ensures Hosts(Inserted(lines, at, line), section)
         == Hosts(lines, section) + (if section == group then [HostOf(line)] else [])
  {
    hide ReaderKind, HostOf;
    var a, b := lines[..at], lines[at..];
    assert lines == a + b;
    HostsAppend(a, b, section, false);
    HostsAppend(a + [line], b, section, false);
    HostsAppend(a, [line], section, false);
    assert [line][1..] == [];
    if section != group {
      OneOpen(a, group, section);
    }
  }

  /** Only one section is open at a time. */
  lemma {:induction false} OneOpen(lines: seq<string>, group: string, section: string)
    requires group != section && InsideAfter(lines, group, false)
    ensures !InsideAfter(lines, section, false)
  {
    hide ReaderKind;
    OpenEither(lines, group, section, false, false);
  }

  lemma {:induction false} OpenEither(lines: seq<string>, group: string, section: string, inGroup: bool,
                                      inSection: bool)
    requires group != section && !(inGroup && inSection)
    ensures !(InsideAfter(lines, group, inGroup) && InsideAfter(lines, section, inSection))
  {
    hide ReaderKind;
    if lines != [] {
      match ReaderKind(lines[0])
      case Head(name) =>
        OpenEither(lines[1..], group, section, name == group, name == section);
      case _ =>
        OpenEither(lines[1..], group, section, inGroup, inSection);
    }
  }

  predicate PlainGroup(group: string) {
    group != "" && forall i :: 0 <= i < |group| ==> NameChar(group[i])
  }

  lemma GroupsArePlain(group: string)
    requires group in AUTO_GROUPS + [MANUAL]
    ensures PlainGroup(group)
  {
  }

  lemma HeaderKind(group: string)
    requires PlainGroup(group)
    ensures ReaderKind("[" + group + "]") == Head(group)
  {
    var line := "[" + group + "]";
    assert group[0] != '[' && group[0] != ']' && group[|group| - 1] != '[' && group[|group| - 1] != ']';
    BracketsStay(group);
    hide Strip, PlainGroup;
    BracketsGo(group);
    assert line[0] == '[';
  }

  lemma BracketsGo(group: string)
    requires group != ""
    requires group[0] != '[' && group[0] != ']' && group[|group| - 1] != '[' && group[|group| - 1] != ']'
    ensures UnBracket("[" + group + "]") == group
  {
    var line := "[" + group + "]";
    assert line[1..] == group + "]";
    assert UnBracket(group) == group;
    assert (group + "]")[..|group|] == group;
    assert UnBracket(group + "]") == group;
  }

  /** A new section at the end holds the host alone and takes nothing from the others. */
  lemma NewSectionReads(lines: seq<string>, group: string, line: string, section: string)
    requires Insertion(lines, group, None) && PlainGroup(group) && ReaderKind(line) == HostEntry
    ensures Hosts(NewSection(lines, group, line), section)
         == Hosts(lines, section) + (if section == group then [HostOf(line)] else [])
  {
    hide ReaderKind, HostOf;
    HeaderKind(group);
    BlankKind();
    var header := "[" + group + "]";
    var blank := if lines != [] && Strip(lines[|lines| - 1]) != "" then [""] else [];
    var tail := [header, line];
    HostsAppend(lines, blank, section, false);
    HostsAppend(lines + blank, tail, section, false);
    assert blank != [] ==> blank[1..] == [];
    assert HostsIn(blank, section, InsideAfter(lines, section, false)) == [];
    assert tail[1..] == [line] && [line][1..] == [];
    TailReads(header, line, group, section, InsideAfter(lines + blank, section, false));
  }

  lemma TailReads(header: string, line: string, group: string, section: string, inside: bool)
    requires ReaderKind(header) == Head(group) && ReaderKind(line) == HostEntry
    ensures HostsIn([header, line], section, inside) == if section == group then [HostOf(line)] else []
  {
    hide ReaderKind, HostOf;
    assert [header, line][1..] == [line] && [line][1..] == [];
    assert HostsIn([line], section, group == section) == if section == group then [HostOf(line)] else [];
    assert HostsIn([header, line], section, inside) == HostsIn([line], section, group == section);
  }

  lemma BlankKind()
    ensures ReaderKind("") == Skipped
  {
  }

  /** The value put under a key; a repeated key keeps its place. */
  function Put(vars: seq<(string, string)>, key: string, value: string): seq<(string, string)> {
    if vars == [] then [(key, value)]
    else if vars[0].0 == key then [(key, value)] + vars[1..]
    else [vars[0]] + Put(vars[1..], key, value)
  }

  lemma {:induction false} PutKeepsKeys(vars: seq<(string, string)>, key: string, value: string)
    requires ValidVars(vars) && ValidKey(key) && NoBlank(value)
    ensures ValidVars(Put(vars, key, value))
    ensures forall v <- Put(vars, key, value) :: v == (key, value) || v in vars
  {
    hide ValidKey, NoBlank;
    if vars != [] && vars[0].0 != key {
      assert ValidVars(vars[1..]);
      PutKeepsKeys(vars[1..], key, value);
      var rest := Put(vars[1..], key, value);
      forall i | 0 <= i < |rest|
        ensures rest[i].0 != vars[0].0
      {
        assert rest[i] in rest;
      }
    }
  }

  /** The trimmed variables in the order their keys first came, or None when one is refused. */
  function Checked(given: seq<(string, string)>): Option<seq<(string, string)>> {
    if given == [] then Some([])
    else
      var before, last := Checked(given[..|given| - 1]), given[|given| - 1];
      if before.None? || !ValidKey(Strip(last.0)) || !NoBlank(Strip(last.1)) then None
      else Some(Put(before.value, Strip(last.0), Strip(last.1)))
  }

  lemma {:induction false} OneBadRefusesAll(given: seq<(string, string)>, i: nat)
    requires i <= |given| && Checked(given[..i]).None?
    ensures Checked(given).None?
  {
    hide ValidKey, NoBlank, Strip, Put;
    if i == |given| {
      assert given[..i] == given;
    } else {
      assert given[..|given| - 1][..i] == given[..i];
      OneBadRefusesAll(given[..|given| - 1], i);
    }
  }

  /** Trim and check every variable. */
  method ValidateInlineVars(given: seq<(string, string)>) returns (vars: Option<seq<(string, string)>>)
    ensures vars == Checked(given)
    ensures vars.Some? ==> ValidVars(vars.value)
    ensures vars.None? <==> exists v <- given :: !ValidKey(Strip(v.0)) || !NoBlank(Strip(v.1))
  {
    hide ValidKey, NoBlank, Strip, Put;
    var out: seq<(string, string)> := [];
    for i := 0 to |given|
      invariant ValidVars(out) && Checked(given[..i]) == Some(out)
      invariant forall j :: 0 <= j < i ==> ValidKey(Strip(given[j].0)) && NoBlank(Strip(given[j].1))
    {
      var key, value := Strip(given[i].0), Strip(given[i].1);
      assert given[..i + 1][..i] == given[..i];
      if !ValidKey(key) || !NoBlank(value) {
        assert given[i] in given;
        OneBadRefusesAll(given, i + 1);
        return None;
      }
      PutKeepsKeys(out, key, value);
      out := Put(out, key, value);
    }
    assert given[..|given|] == given;
    vars := Some(out);
  }

  /**
   Add a host at the end of its group. In a tidy file the reader then sees the group's old hosts with the new one at
   the end, with exactly its variables when the values can be read back, and every other section as it was.
   */
  method AddHost(lines: seq<string>, group: string, given: string, givenVars: seq<(string, string)>)
    returns (edit: Edit)
    ensures edit.Edited? <==> Admitted(lines, group, Strip(given), Checked(givenVars))
    ensures edit.Edited? ==>
      var name, vars := Strip(given), Checked(givenVars).value;
      edit.lines == WithHost(lines, group, HostLine(name, vars))
      && (Tidy(lines) ==>
            forall section: string ::
              Hosts(edit.lines, section)
              == Hosts(lines, section) + (if section == group then [HostOf(HostLine(name, vars))] else []))
      && (Readable(vars) ==> HostOf(HostLine(name, vars)) == (name, ToVars(vars)))
  {
    hide *;
    if group !in AUTO_GROUPS + [MANUAL] {
      AdmittedMeans(lines, group, Strip(given), Checked(givenVars));
      return Refused(UnknownGroup);
    }
    GroupsArePlain(group);
    var name := Strip(given);
    var checked := ValidateInlineVars(givenVars);
    AdmittedMeans(lines, group, name, checked);
    if !ValidName(name) {
      return Refused(BadName);
    }
    if checked.None? {
      return Refused(BadVariable);
    }
    var mine := IterSection(lines, group);
    if name in Names(mine) {
      return Refused(Duplicate);
    }
    if group == MANUAL {
      if InAuto(lines, name) {
        return Refused(ManualClash);
      }
      if ADAPTER !in Keys(checked.value) {
        return Refused(NoAdapter);
      }
    } else {
      var manual := IterSection(lines, MANUAL);
      if name in Names(manual) {
        return Refused(ManualClash);
      }
    }
    var line := HostLine(name, checked.value);
    var at := FindInsertion(lines, group);
    HostLineKind(name, checked.value);
    if Readable(checked.value) {
      HostLineReadsBack(name, checked.value);
    }
    if Tidy(lines) {
      forall section: string
        ensures Hosts(WithHost(lines, group, line), section)
             == Hosts(lines, section) + (if section == group then [HostOf(line)] else [])
      {
        WithHostReads(lines, group, line, section);
      }
    }
    WithHostIs(lines, group, line);
    edit := Edited(match at case Some(i) => Inserted(lines, i, line) case None => NewSection(lines, group, line));
  }

  /** When a host is taken in: a known group, a clean name and variables, and no clash with the hosts that are there. */
  predicate Admitted(lines: seq<string>, group: string, name: string, vars: Option<seq<(string, string)>>) {
    && group in AUTO_GROUPS + [MANUAL] && ValidName(name) && vars.Some?
    && name !in Names(Hosts(lines, group))
    && if group == MANUAL then !InAuto(lines, name) && ADAPTER in Keys(vars.value)
         else name !in Names(Hosts(lines, MANUAL))
  }

  lemma AdmittedMeans(lines: seq<string>, group: string, name: string, vars: Option<seq<(string, string)>>)
    ensures Admitted(lines, group, name, vars) <==>
      && group in AUTO_GROUPS + [MANUAL] && ValidName(name) && vars.Some?
      && name !in Names(Hosts(lines, group))
      && (group == MANUAL ==> !InAuto(lines, name) && ADAPTER in Keys(vars.value))
      && (group != MANUAL ==> name !in Names(Hosts(lines, MANUAL)))
  {
    hide Names, Hosts, InAuto, Keys, ValidName;
  }

  /** The file with the line at the editor's position, or under a new section at the end. */
  function WithHost(lines: seq<string>, group: string, line: string): seq<string> {
    match InsertAt(lines, group)
    case Some(at) => Inserted(lines, at, line)
    case None => NewSection(lines, group, line)
  }

  lemma WithHostIs(lines: seq<string>, group: string, line: string)
    ensures WithHost(lines, group, line)
      == match InsertAt(lines, group)
         case Some(i) => Inserted(lines, i, line)
         case None => NewSection(lines, group, line)
  {
  }

  /** The reader sees the group's old hosts with the new one at the end, and every other section as it was. */
  lemma WithHostReads(lines: seq<string>, group: string, line: string, section: string)
    requires Tidy(lines) && PlainGroup(group) && ReaderKind(line) == HostEntry
    ensures Hosts(WithHost(lines, group, line), section)
      == Hosts(lines, section) + (if section == group then [HostOf(line)] else [])
  {
    hide *;
    InsertionPoint(lines, group);
    WithHostIs(lines, group, line);
    match InsertAt(lines, group)
    case Some(at) => InsertedReads(lines, group, at, line, section);
    case None => NewSectionReads(lines, group, line, section);
  }

  function Keys(vars: seq<(string, string)>): set<string> {
    set v <- vars :: v.0
  }

  // ---- Removing ------------------------------------------------------------------------------------

  /** The lines without the first entry of the group that names the host; None when there is none. */
  function RemoveFirst(lines: seq<string>, group: string, name: string, inside: bool): Option<seq<string>> {
    if lines == [] then None
    else if EditorKind(lines[0]).HostEntry? && inside && Words(lines[0]) != [] && Words(lines[0])[0] == name then
      Some(lines[1..])
    else
      var next := if EditorKind(lines[0]).Head? then EditorKind(lines[0]).section == group else inside;
      var rest := RemoveFirst(lines[1..], group, name, next);
      if rest.None? then None else Some([lines[0]] + rest.value)
  }

  method RemoveHost(lines: seq<string>, group: string, given: string) returns (edit: Edit)
    ensures edit ==
      if group !in AUTO_GROUPS + [MANUAL] then Refused(UnknownGroup)
      else if !ValidName(Strip(given)) then Refused(BadName)
      else
        match RemoveFirst(lines, group, Strip(given), false)
        case Some(kept) => Edited(kept)
        case None => Refused(NotFound)
  {
    hide Words, EditorKind, ValidName, Strip;
    if group !in AUTO_GROUPS + [MANUAL] {
      return Refused(UnknownGroup);
    }
    var name := Strip(given);
    if !ValidName(name) {
      return Refused(BadName);
    }
    var out: seq<string> := [];
    var inside := false;
    var i := 0;
    assert lines[0..] == lines;
    StartEmpty(RemoveFirst(lines, group, name, false));
    while i < |lines|
      invariant i <= |lines|
      invariant var all, rest := RemoveFirst(lines, group, name, false), RemoveFirst(lines[i..], group, name, inside);
        all == if rest.None? then None else Some(out + rest.value)
    {
      assert lines[i..][0] == lines[i] && lines[i..][1..] == lines[i + 1..];
      var kind := EditorKind(lines[i]);
      MoveOver(out, lines[i], RemoveFirst(lines[i + 1..], group, name,
                                          if kind.Head? then kind.section == group else inside));
      if kind.Head? {
        inside := kind.section == group;
      } else if inside && kind.HostEntry? && Words(lines[i]) != [] && Words(lines[i])[0] == name {
        return Edited(out + lines[i + 1..]);
      }
      out := out + [lines[i]];
      i := i + 1;
    }
    edit := Refused(NotFound);
  }

  lemma StartEmpty(rest: Option<seq<string>>)
    ensures rest == if rest.None? then None else Some([] + rest.value)
  {
    if rest.Some? {
      assert [] + rest.value == rest.value;
    }
  }

  lemma MoveOver(out: seq<string>, line: string, rest: Option<seq<string>>)
    ensures rest.Some? ==> out + ([line] + rest.value) == (out + [line]) + rest.value
  {
  }

  /** Removing the host that was inserted restores the file, when no host of that name stood before it. */
  lemma {:induction false} RemoveSkips(a: seq<string>, line: string, b: seq<string>, group: string, name: string,
                                       inside: bool)
    requires forall l <- a :: Clean(l)
    requires name !in Names(HostsIn(a, group, inside)) && name != "" && InsideAfter(a, group, inside)
    requires EditorKind(line) == HostEntry && Words(line) != [] && Words(line)[0] == name
    ensures RemoveFirst(a + [line] + b, group, name, inside) == Some(a + b)
  {
    hide ReaderKind, EditorKind, Words, ParseVars;
    var all := a + [line] + b;
    if a == [] {
      assert all == [line] + b && all[1..] == b && [] + b == b;
    } else {
      assert a[0] in a;
      assert all[0] == a[0] && all[1..] == a[1..] + [line] + b;
      var next := if EditorKind(a[0]).Head? then EditorKind(a[0]).section == group else inside;
      if ReaderKind(a[0]).HostEntry? && inside {
        assert HostsIn(a, group, inside)[0] == HostOf(a[0]);
        assert HostOf(a[0]) in HostsIn(a, group, inside);
      }
      RestNames(a, group, inside, name);
      RemoveSkips(a[1..], line, b, group, name, next);
      assert [a[0]] + (a[1..] + b) == a + b;
    }
  }

  /** The hosts without the first of this name. */
  function DropName(hosts: seq<(string, Vars)>, name: string): seq<(string, Vars)> {
    if hosts == [] then []
    else if hosts[0].0 == name then hosts[1..]
    else [hosts[0]] + DropName(hosts[1..], name)
  }

  /**
   What a removal leaves, as the reader sees it: the group without the first host of that name, the other sections as
   they were. It fails exactly when the reader sees no such host in the group.
   */
  lemma RemovalReads(lines: seq<string>, group: string, name: string, section: string)
    requires (forall l <- lines :: Clean(l)) && name != ""
    ensures var kept := RemoveFirst(lines, group, name, false);
      && (kept.Some? <==> name in Names(Hosts(lines, group)))
      && (kept.Some? ==>
            Hosts(kept.value, section)
            == if section == group then DropName(Hosts(lines, section), name) else Hosts(lines, section))
  {
    RemovalReadsFrom(lines, group, name, false, section, false);
  }

  /** Whether the group is open after a line. */
  function OpenAt(line: string, section: string, open: bool): bool {
    if ReaderKind(line).Head? then ReaderKind(line).section == section else open
  }

  /** The host a line adds to an open group. */
  function HostsAt(line: string, open: bool): seq<(string, Vars)> {
    if ReaderKind(line).HostEntry? && open then [HostOf(line)] else []
  }

  lemma {:induction false} RemovalReadsFrom(lines: seq<string>, group: string, name: string, inside: bool,
                                            section: string, open: bool)
    requires (forall l <- lines :: Clean(l)) && name != ""
    requires if section == group then inside == open else !(inside && open)
    ensures var kept, hosts := RemoveFirst(lines, group, name, inside), HostsIn(lines, group, inside);
      && (kept.Some? <==> name in Names(hosts))
      && (kept.Some? ==>
            HostsIn(kept.value, section, open)
            == if section == group then DropName(HostsIn(lines, section, open), name)
                 else HostsIn(lines, section, open))
  {
    hide ReaderKind, EditorKind, HostOf, Words;
    if lines != [] {
      var line, rest := lines[0], lines[1..];
      assert line in lines && lines == [line] + rest;
      RemovalReadsFrom(rest, group, name, OpenAt(line, group, inside), section, OpenAt(line, section, open));
      hide RemoveFirst, HostsIn, Names;
      RemoveStep(line, rest, group, name, inside);
      HeadLine(line, rest, section, open);
      HeadLine(line, rest, group, inside);
      NamesStep(HostsAt(line, inside), HostsIn(rest, group, OpenAt(line, group, inside)), name);
      var kept := RemoveFirst(rest, group, name, OpenAt(line, group, inside));
      if kept.Some? {
        HeadLine(line, kept.value, section, open);
      }
    }
  }

  lemma NamesStep(first: seq<(string, Vars)>, rest: seq<(string, Vars)>, name: string)
    requires |first| <= 1
    ensures name in Names(first + rest) <==> name in Names(rest) || (first != [] && first[0].0 == name)
    ensures first == [] ==> first + rest == rest
    ensures first != [] ==> (first + rest)[1..] == rest
  {
    if first != [] {
      assert first + rest == [first[0]] + rest;
    }
    assert forall h <- rest :: h in first + rest;
  }

  lemma RemoveStep(line: string, rest: seq<string>, group: string, name: string, inside: bool)
    requires Clean(line) && name != ""
    ensures RemoveFirst([line] + rest, group, name, inside)
      == if HostsAt(line, inside) != [] && HostOf(line).0 == name then Some(rest)
         else
           match RemoveFirst(rest, group, name, OpenAt(line, group, inside))
           case Some(kept) => Some([line] + kept)
           case None => None
  {
    hide ReaderKind, EditorKind, HostOf, Words;
    SameName(line, name);
    assert ([line] + rest)[1..] == rest;
  }

  lemma HeadLine(line: string, rest: seq<string>, section: string, open: bool)
    ensures HostsIn([line] + rest, section, open)
        == HostsAt(line, open) + HostsIn(rest, section, OpenAt(line, section, open))
  {
    hide ReaderKind, HostOf;
    assert ([line] + rest)[1..] == rest;
  }

  lemma SameName(line: string, name: string)
    requires name != ""
    ensures Words(line) != [] && Words(line)[0] == name <==> HostOf(line).0 == name
  {
    hide Words, ParseVars;
  }

  lemma RestNames(a: seq<string>, group: string, inside: bool, name: string)
    requires a != [] && name !in Names(HostsIn(a, group, inside))
    ensures var next := if ReaderKind(a[0]).Head? then ReaderKind(a[0]).section == group else inside;
      name !in Names(HostsIn(a[1..], group, next)) && InsideAfter(a, group, inside) == InsideAfter(a[1..], group, next)
  {
    hide ReaderKind, HostOf;
  }

  /**
   Add, then remove. In a tidy file the original lines come back exactly when the group had a section; a section
   created for the host stays behind, with the empty line before it.
   */
  lemma RemoveUndoesAdd(lines: seq<string>, group: string, name: string, vars: seq<(string, string)>)
    requires Tidy(lines) && Admitted(lines, group, name, Some(vars)) && ValidVars(vars)
    ensures var added := WithHost(lines, group, HostLine(name, vars));
      var removed := RemoveFirst(added, group, name, false);
      removed.Some? && (removed.value == lines <==> exists l <- lines :: ReaderKind(l) == Head(group))
  {
    hide ReaderKind, EditorKind, Words, HostLine, ParseVars, ValidVars, Pairs, InsertAt, Insertion, ValidName;
    GroupsArePlain(group);
    InsertionPoint(lines, group);
    PositionMeansSection(lines, group);
    RemoveFromPosition(lines, group, name, vars, InsertAt(lines, group));
  }

  lemma RemoveFromPosition(lines: seq<string>, group: string, name: string, vars: seq<(string, string)>,
                           at: Option<nat>)
    requires Tidy(lines) && PlainGroup(group) && ValidName(name) && ValidVars(vars)
    requires Insertion(lines, group, at) && name !in Names(Hosts(lines, group))
    ensures var line := HostLine(name, vars);
      var added := if at.Some? then Inserted(lines, at.value, line) else NewSection(lines, group, line);
      var removed := RemoveFirst(added, group, name, false);
      removed.Some? && (removed.value == lines <==> at.Some?)
  {
    hide ReaderKind, EditorKind, Words, HostLine, ParseVars, ValidVars, Pairs;
    var line := HostLine(name, vars);
    HostLineKind(name, vars);
    HostLineWords(name, vars);
    if at.Some? {
      var a, b := lines[..at.value], lines[at.value..];
      assert lines == a + b;
      HostsAppend(a, b, group, false);
      RemoveSkips(a, line, b, group, name, false);
    } else {
      HeaderKind(group);
      var header := "[" + group + "]";
      var a := lines + (if lines != [] && Strip(lines[|lines| - 1]) != "" then [""] else []) + [header];
      NewSectionOpen(lines, group);
      assert NewSection(lines, group, line) == a + [line] + [];
      RemoveSkips(a, line, [], group, name, false);
    }
  }

  lemma NewSectionOpen(lines: seq<string>, group: string)
    requires Tidy(lines) && PlainGroup(group) && Insertion(lines, group, None)
    ensures var a := lines + (if lines != [] && Strip(lines[|lines| - 1]) != "" then [""] else [])
        + ["[" + group + "]"];
      && (forall l <- a :: Clean(l))
      && Hosts(a, group) == [] && InsideAfter(a, group, false)
  {
    hide ReaderKind, EditorKind;
    HeaderKind(group);
    HeaderEditorKind(group);
    BlankKind();
    BlankEditorKind();
    NoHeadNoHosts(lines, group);
    var blank := if lines != [] && Strip(lines[|lines| - 1]) != "" then [""] else [];
    var header := ["[" + group + "]"];
    assert blank != [] ==> blank[1..] == [];
    assert header[1..] == [];
    HostsAppend(lines, blank, group, false);
    HostsAppend(lines + blank, header, group, false);
  }

  lemma HeaderEditorKind(group: string)
    requires PlainGroup(group)
    ensures EditorKind("[" + group + "]") == Head(group)
  {
    var line := "[" + group + "]";
    assert ']' !in group;
    BracketsStay(group);
    hide Strip, PlainGroup, IsComment;
    assert line[1..|line| - 1] == group;
  }

  lemma BracketsStay(group: string)
    ensures Strip("[" + group + "]") == "[" + group + "]"
  {
    StripFramed("[" + group + "]");
  }

  lemma StripFramed(line: string)
    requires line != "" && !IsSpace(line[0]) && !IsSpace(line[|line| - 1])
    ensures Strip(line) == line
  {
  }

  lemma BlankEditorKind()
    ensures EditorKind("") == Skipped
  {
  }
}
