/**
 Which directories a disk report names: a bottom-up choice over the tree of measured directories in which every
 byte has at most one owner. Paths are held as their components; the filesystem root is the empty path.
 */
module DiskUsage {
  import opened LogEntry

  type Path = seq<string>

  datatype Directory = Directory(path: Path, total: nat, direct: nat)

  /** Expected shares in percent: by declared prefix, and the default for everything else. */
  datatype SharePolicy = SharePolicy(caps: map<Path, real>, defaultCap: real)

  // ---- Expected shares -----------------------------------------------------------------------------

  /** The cap declared for the path or for its nearest declared ancestor. */
  function ExpectedShare(caps: map<Path, real>, path: Path): Option<real> {
    if path in caps then Some(caps[path])
    else if path == [] then None
    else ExpectedShare(caps, path[..|path| - 1])
  }

  /** The longest declared prefix, found by looking at every declared one. */
  method FindExpectedShare(caps: map<Path, real>, path: Path) returns (share: Option<real>)
    ensures share == ExpectedShare(caps, path)
  {
    var best: Option<Path> := None;
    var todo := caps.Keys;
    while todo != {}
      invariant todo <= caps.Keys
      invariant best.Some? ==> best.value in caps && best.value <= path
      invariant forall p <- caps :: p <= path ==> p in todo || (best.Some? && |p| <= |best.value|)
      decreases |todo|
    {
      var prefix :| prefix in todo;
      todo := todo - {prefix};
      if prefix <= path && (best.None? || |prefix| > |best.value|) {
        best := Some(prefix);
      }
    }
    LongestIsNearest(caps, path, best);
    share := if best.None? then None else Some(caps[best.value]);
  }

  lemma {:induction false} LongestIsNearest(caps: map<Path, real>, path: Path, best: Option<Path>)
    requires best.Some? ==> best.value in caps && best.value <= path
    requires forall p <- caps :: p <= path ==> best.Some? && |p| <= |best.value|
    ensures ExpectedShare(caps, path) == if best.None? then None else Some(caps[best.value])
  {
    if path in caps {
      assert best.value == path;
    } else if path != [] {
      var up := path[..|path| - 1];
      forall p <- caps | p <= up
        ensures best.Some? && |p| <= |best.value|
      {
        assert p <= path;
      }
      if best.Some? {
        assert best.value != path;
        assert best.value <= up;
      }
      LongestIsNearest(caps, up, best);
    }
  }

  function CapFor(policy: SharePolicy, path: Path): real {
    var share := ExpectedShare(policy.caps, path);
    if share.Some? then share.value else policy.defaultCap
  }

  /** `size` is strictly more than `cap` percent of `used`; the comparison is exact. */
  predicate ExceedsShare(size: nat, cap: real, used: nat) {
    (size * 100) as real > cap * used as real
  }

  predicate Qualifies(size: int, cap: real, floor: nat, used: nat) {
    size > 0 && size >= floor && ExceedsShare(size, cap, used)
  }

  // ---- The tree of measured directories ------------------------------------------------------------

  /** The nearest measured proper ancestor; the root stands for "none". */
  function NearestParent(path: Path, present: set<Path>): (r: Path)
    ensures path != [] ==> r < path
    ensures r == [] || r in present
    ensures forall p <- present :: p < path ==> |p| <= |r|
  {
    if path == [] then []
    else
      var up := path[..|path| - 1];
      assert forall p <- present :: p < path ==> p == up || p < up by { AncestorsAbove(path, present); }
      if up == [] then []
      else if up in present then up
      else NearestParent(up, present)
  }

  lemma AncestorsAbove(path: Path, present: set<Path>)
    requires path != []
    ensures forall p <- present :: p < path ==> p == path[..|path| - 1] || p < path[..|path| - 1]
  {
    forall p <- present | p < path
      ensures p == path[..|path| - 1] || p < path[..|path| - 1]
    {
      assert p == path[..|path| - 1][..|p|];
    }
  }

  /** One measured tree and how it is judged. `order` lists every directory but the root. */
  datatype Scan = Scan(
    byPath: map<Path, Directory>,
    order: seq<Path>,
    policy: SharePolicy,
    requested: set<Path>,
    floor: nat,
    used: nat,
    normalAllowed: bool,
    maxDepth: nat)
  {
    predicate Valid() {
      && [] in byPath && used > 0
      && (forall p <- order :: p != [] && p in byPath && |p| <= maxDepth)
      && (forall p <- byPath :: p != [] ==> p in order)
      && (forall i, j :: 0 <= i < j < |order| ==> order[i] != order[j])
    }

    function Present(): set<Path> {
      byPath.Keys
    }
  }

  /** The directories whose nearest measured ancestor is `parent`, in order. */
  function ChildrenIn(order: seq<Path>, present: set<Path>, parent: Path): (r: seq<Path>)
    ensures forall p <- r :: p in order && NearestParent(p, present) == parent
    ensures forall p <- order :: NearestParent(p, present) == parent ==> p in r
  {
    if order == [] then []
    else
      var n := |order| - 1;
      ChildrenIn(order[..n], present, parent) + (if NearestParent(order[n], present) == parent then [order[n]] else [])
  }

  function Children(s: Scan, parent: Path): seq<Path>
    requires s.Valid()
  {
    ChildrenIn(s.order, s.Present(), parent)
  }

  lemma ChildrenStep(order: seq<Path>, present: set<Path>, i: nat, parent: Path)
    requires i < |order|
    ensures ChildrenIn(order[..i + 1], present, parent)
         == ChildrenIn(order[..i], present, parent)
              + (if NearestParent(order[i], present) == parent then [order[i]] else [])
  {
    assert order[..i + 1][..i] == order[..i];
  }

  /** The lists hold, for every directory, its children among the first `n`. */
  ghost predicate Built(children: map<Path, seq<Path>>, order: seq<Path>, n: nat, present: set<Path>)
    requires n <= |order|
  {
    forall parent: Path :: Listed(children, parent) == ChildrenIn(order[..n], present, parent)
  }

  lemma BuiltStep(children: map<Path, seq<Path>>, order: seq<Path>, i: nat, present: set<Path>)
    requires i < |order| && Built(children, order, i, present)
    ensures var parent := NearestParent(order[i], present);
      Built(children[parent := Listed(children, parent) + [order[i]]], order, i + 1, present)
  {
    hide NearestParent, ChildrenIn;
    var own := NearestParent(order[i], present);
    var next := children[own := Listed(children, own) + [order[i]]];
    var n := i + 1;
    forall parent: Path
      ensures Listed(next, parent) == ChildrenIn(order[..n], present, parent)
    {
      ChildrenStep(order, present, i, parent);
      assert Listed(children, parent) == ChildrenIn(order[..i], present, parent);
    }
  }

  /** Build the children lists in one pass over the directories. */
  method BuildChildren(order: seq<Path>, present: set<Path>) returns (children: map<Path, seq<Path>>)
    requires forall p <- order :: p != []
    ensures Built(children, order, |order|, present)
  {
    hide NearestParent, Built;
    children := map[];
    BuiltNothing(order, present);
    for i := 0 to |order|
      invariant Built(children, order, i, present)
    {
      assert order[i] in order;
      BuiltStep(children, order, i, present);
      var parent := FindNearestParent(order[i], present);
      children := children[parent := Listed(children, parent) + [order[i]]];
    }
  }

  lemma BuiltNothing(order: seq<Path>, present: set<Path>)
    ensures Built(map[], order, 0, present)
  {
  }

  function Listed(children: map<Path, seq<Path>>, parent: Path): seq<Path> {
    if parent in children then children[parent] else []
  }

  /** Walk up until a measured directory or the root is met. */
  method FindNearestParent(path: Path, present: set<Path>) returns (parent: Path)
    requires path != []
    ensures parent == NearestParent(path, present)
  {
    var current := path;
    while true
      invariant current != [] && NearestParent(current, present) == NearestParent(path, present)
      decreases |current|
    {
      var up := current[..|current| - 1];
      if up == [] {
        return [];
      }
      if up in present {
        return up;
      }
      current := up;
    }
  }

  // ---- Choosing consumers --------------------------------------------------------------------------

  datatype Kind = WholeDirectory | DirectoryOther | RootFiles

  datatype Consumer = Consumer(path: Path, size: nat, cap: real, kind: Kind)

  datatype Subtree = Subtree(consumers: seq<Consumer>, covered: int, hasRequested: bool, hasNormal: bool)

  /** What a choice yields, or that the measurements contradict each other. */
  datatype Choice = Chosen(tree: Subtree) | Inconsistent

  function Sum(consumers: seq<Consumer>): nat {
    if consumers == [] then 0 else consumers[0].size + Sum(consumers[1..])
  }

  lemma {:induction false} SumConcat(a: seq<Consumer>, b: seq<Consumer>)
    ensures Sum(a + b) == Sum(a) + Sum(b)
  {
    if a == [] {
      assert a + b == b;
    } else {
      SumConcat(a[1..], b);
      assert (a + b)[1..] == a[1..] + b;
    }
  }

  lemma SumOne(c: Consumer)
    ensures Sum([c]) == c.size
  {
    assert [c][1..] == [];
  }

  function Join(a: Choice, b: Choice): Choice {
    if a.Inconsistent? || b.Inconsistent? then Inconsistent
    else Chosen(Subtree(a.tree.consumers + b.tree.consumers, a.tree.covered + b.tree.covered,
                        a.tree.hasRequested || b.tree.hasRequested, a.tree.hasNormal || b.tree.hasNormal))
  }

  /** The subtrees below a directory, put together. */
  function SelectAll(s: Scan, parent: Path, kids: seq<Path>): Choice
    requires s.Valid() && |parent| <= s.maxDepth
    requires forall k <- kids :: k in s.order && parent < k
    decreases s.maxDepth - |parent|, 0, |kids|
  {
    if kids == [] then Chosen(Subtree([], 0, false, false))
    else
      var n := |kids| - 1;
      Join(SelectAll(s, parent, kids[..n]), Select(s, kids[n]))
  }

  /** What one directory adds to what was chosen below it. */
  function Decide(s: Scan, path: Path, below: Subtree): Choice
    requires s.Valid() && path in s.byPath
  {
    var size := s.byPath[path].total;
    var cap := CapFor(s.policy, path);
    var frontier := Sum(below.consumers);
    if s.normalAllowed && path in s.policy.caps && !ExceedsShare(size, s.policy.caps[path], s.used) then
      if size - frontier < 0 then Inconsistent
      else Chosen(Subtree(below.consumers, size - frontier, below.hasRequested, true))
    else if !Qualifies(size, cap, s.floor, s.used) then Chosen(below)
    else
      var requested := below.hasRequested || path in s.requested;
      if below.covered > 0 || requested || below.hasNormal then
        var residual := size - frontier - below.covered;
        if residual < 0 then Inconsistent
        else if Qualifies(residual, cap, s.floor, s.used) then
          Chosen(Subtree(below.consumers + [Consumer(path, residual, cap,
                                                     if residual < size then DirectoryOther else WholeDirectory)],
                         below.covered, requested, below.hasNormal))
        else Chosen(Subtree(below.consumers, below.covered, requested, below.hasNormal))
      else if frontier * 100 >= size * 70 then Chosen(Subtree(below.consumers, below.covered, requested,
                                                              below.hasNormal))
      else Chosen(Subtree([Consumer(path, size, cap, WholeDirectory)], 0, false, false))
  }

  function Select(s: Scan, path: Path): Choice
    requires s.Valid() && |path| <= s.maxDepth && path in s.byPath
    decreases s.maxDepth - |path|, 1, 0
  {
    var below := SelectAll(s, path, Children(s, path));
    if below.Inconsistent? then Inconsistent
    else if path == [] then Chosen(Subtree(below.tree.consumers, 0, below.tree.hasRequested, below.tree.hasNormal))
    else Decide(s, path, below.tree)
  }

  // ---- Every byte has one owner --------------------------------------------------------------------

  function SizeOf(s: Scan, kids: seq<Path>): nat
    requires forall k <- kids :: k in s.byPath
  {
    if kids == [] then 0 else SizeOf(s, kids[..|kids| - 1]) + s.byPath[kids[|kids| - 1]].total
  }

  /** The measurements add up: children together are no larger than their parent, and everything fits the used space. */
  ghost predicate Additive(s: Scan)
    requires s.Valid()
  {
    && (forall p <- s.order :: SizeOf(s, Children(s, p)) <= s.byPath[p].total)
    && SizeOf(s, Children(s, [])) + s.byPath[[]].direct <= s.used
  }

  /** What is chosen in a subtree, with what is covered there, never exceeds the subtree. */
  predicate Within(choice: Choice, size: nat) {
    choice.Chosen? && choice.tree.covered >= 0 && Sum(choice.tree.consumers) + choice.tree.covered <= size
  }

  lemma DecideWithin(s: Scan, path: Path, below: Subtree)
    requires s.Valid() && path in s.byPath && Within(Chosen(below), s.byPath[path].total)
    ensures Within(Decide(s, path, below), s.byPath[path].total)
  {
    hide CapFor, ExceedsShare;
    var decided := Decide(s, path, below);
    if decided.Chosen? && decided.tree.consumers != below.consumers {
      var last := decided.tree.consumers[|decided.tree.consumers| - 1];
      SumOne(last);
      SumConcat(below.consumers, [last]);
    }
  }

  lemma {:induction false} SelectAllWithin(s: Scan, parent: Path, kids: seq<Path>)
    requires s.Valid() && Additive(s) && |parent| <= s.maxDepth
    requires forall k <- kids :: k in s.order && parent < k
    ensures Within(SelectAll(s, parent, kids), SizeOf(s, kids))
    decreases s.maxDepth - |parent|, 0, |kids|
  {
    hide Additive, Select;
    if kids != [] {
      var n := |kids| - 1;
      SelectAllWithin(s, parent, kids[..n]);
      SelectWithin(s, kids[n]);
      SumConcat(SelectAll(s, parent, kids[..n]).tree.consumers, Select(s, kids[n]).tree.consumers);
    }
  }

  /**
   With measurements that add up, the sizes reported in a subtree and the bytes covered there never exceed its
   total, and the choice never meets a contradiction.
   */
  lemma {:induction false} SelectWithin(s: Scan, path: Path)
    requires s.Valid() && Additive(s) && path in s.order
    ensures Within(Select(s, path), s.byPath[path].total)
    decreases s.maxDepth - |path|, 1, 0
  {
    hide Decide, ChildrenIn, NearestParent;
    SelectAllWithin(s, path, Children(s, path));
    DecideWithin(s, path, SelectAll(s, path, Children(s, path)).tree);
  }

  // ---- Overlap -------------------------------------------------------------------------------------

  /**
   Every entry strictly exceeds its own cap and reaches the floor; no path is named twice; and an entry that has an
   entry below it only stands for the bytes not credited below.
   */
  predicate Shaped(s: Scan, consumers: seq<Consumer>) {
    && (forall c <- consumers :: Qualifies(c.size, c.cap, s.floor, s.used) && c.cap == CapFor(s.policy, c.path))
    && (forall i, j :: 0 <= i < j < |consumers| ==> consumers[i].path != consumers[j].path)
    && (forall a, b :: a in consumers && b in consumers && a.path < b.path ==> a.kind == DirectoryOther)
  }

  predicate UnderOne(consumers: seq<Consumer>, kids: seq<Path>) {
    forall c <- consumers :: exists k <- kids :: k <= c.path
  }

  predicate Distinct(paths: seq<Path>) {
    forall i, j :: 0 <= i < j < |paths| ==> paths[i] != paths[j]
  }

  /** Siblings lie apart: were one above the other, it would be the nearer ancestor. */
  lemma SiblingsApart(present: set<Path>, a: Path, b: Path)
    requires a in present && b in present && a != b && a != [] && b != []
    requires NearestParent(a, present) == NearestParent(b, present)
    ensures !(a <= b) && !(b <= a)
  {
    hide NearestParent;
    assert a <= b ==> a < b;
    assert b <= a ==> b < a;
  }

  lemma Comparable(a: Path, b: Path, c: Path)
    requires a <= c && b <= c
    ensures a <= b || b <= a
  {
    if |a| <= |b| {
      assert a == c[..|a|] == c[..|b|][..|a|];
    } else {
      assert b == c[..|b|] == c[..|a|][..|b|];
    }
  }

  /** What is chosen under different siblings neither coincides nor overlaps. */
  lemma ShapesApart(s: Scan, parent: Path, kids: seq<Path>, kid: Path, left: seq<Consumer>, right: seq<Consumer>)
    requires s.Valid() && kid in s.order && kid !in kids && NearestParent(kid, s.Present()) == parent
    requires forall k <- kids :: k in s.order && NearestParent(k, s.Present()) == parent
    requires Shaped(s, left) && Shaped(s, right) && UnderOne(left, kids) && UnderOne(right, [kid])
    ensures Shaped(s, left + right) && UnderOne(left + right, kids + [kid])
  {
    hide NearestParent, CapFor, ExceedsShare;
    forall a, b | a in left && b in right
      ensures !(a.path <= b.path) && !(b.path <= a.path)
    {
      var k :| k in kids && k <= a.path;
      assert kid <= b.path;
      SiblingsApart(s.Present(), k, kid);
      PathsApart(k, kid, a.path, b.path);
    }
    ApartShaped(s, left, right);
    forall c <- left + right
      ensures exists k <- kids + [kid] :: k <= c.path
    {
      if c in left {
        var k :| k in kids && k <= c.path;
        assert k in kids + [kid];
      } else {
        assert kid in kids + [kid];
      }
    }
  }

  lemma PathsApart(k: Path, kid: Path, a: Path, b: Path)
    requires !(k <= kid) && !(kid <= k) && k <= a && kid <= b
    ensures !(a <= b) && !(b <= a)
  {
    if a <= b {
      Comparable(k, kid, b);
    } else if b <= a {
      Comparable(k, kid, a);
    }
  }

  lemma ApartShaped(s: Scan, left: seq<Consumer>, right: seq<Consumer>)
    requires Shaped(s, left) && Shaped(s, right)
    requires forall a, b :: a in left && b in right ==> !(a.path <= b.path) && !(b.path <= a.path)
    ensures Shaped(s, left + right)
  {
    hide CapFor, ExceedsShare, Qualifies;
    var all := left + right;
    forall i, j | 0 <= i < j < |all|
      ensures all[i].path != all[j].path
    {
      if i < |left| <= j {
        assert left[i] in left && right[j - |left|] in right;
      }
    }
  }

  lemma UnderPath(consumers: seq<Consumer>, path: Path)
    requires forall c <- consumers :: path <= c.path
    ensures UnderOne(consumers, [path])
  {
    assert path in [path];
  }

  /** A directory that stands above all its entries may be added as the remainder. */
  lemma AppendShaped(s: Scan, consumers: seq<Consumer>, c: Consumer)
    requires Shaped(s, consumers) && (forall d <- consumers :: c.path < d.path)
    requires Qualifies(c.size, c.cap, s.floor, s.used) && c.cap == CapFor(s.policy, c.path)
    requires consumers != [] ==> c.kind == DirectoryOther
    ensures Shaped(s, consumers + [c])
  {
    hide CapFor, Qualifies;
    forall a, b | a in consumers + [c] && b in consumers + [c] && a.path < b.path
      ensures a.kind == DirectoryOther
    {
    }
  }

  lemma DecideShaped(s: Scan, path: Path, below: Subtree, kids: seq<Path>)
    requires s.Valid() && path in s.order && (forall k <- kids :: path < k)
    requires Shaped(s, below.consumers) && UnderOne(below.consumers, kids) && below.covered >= 0
    ensures var d := Decide(s, path, below);
      d.Chosen? ==> Shaped(s, d.tree.consumers) && UnderOne(d.tree.consumers, [path]) && d.tree.covered >= 0
  {
    hide CapFor, ExceedsShare, Qualifies, Shaped, UnderOne;
    StrictlyUnder(below.consumers, kids, path);
    var d := Decide(s, path, below);
    if d.Chosen? {
      if d.tree.consumers != below.consumers {
        var c := d.tree.consumers[|d.tree.consumers| - 1];
        SizesPositive(s, below.consumers);
        if d.tree.consumers == below.consumers + [c] {
          AppendShaped(s, below.consumers, c);
        } else {
          EmptyShaped(s);
          AppendShaped(s, [], c);
          assert [] + [c] == [c];
        }
      }
      UnderPath(d.tree.consumers, path);
    }
  }

  lemma StrictlyUnder(consumers: seq<Consumer>, kids: seq<Path>, path: Path)
    requires UnderOne(consumers, kids) && (forall k <- kids :: path < k)
    ensures forall c <- consumers :: path < c.path
  {
  }

  lemma SizesPositive(s: Scan, consumers: seq<Consumer>)
    requires Shaped(s, consumers)
    ensures consumers != [] ==> Sum(consumers) > 0
  {
    if consumers != [] {
      assert consumers[0] in consumers;
    }
  }

  lemma {:induction false} SelectAllShaped(s: Scan, parent: Path, kids: seq<Path>)
    requires s.Valid() && |parent| <= s.maxDepth
    requires forall k <- kids :: k in s.order && parent < k && NearestParent(k, s.Present()) == parent
    requires Distinct(kids)
    ensures var d := SelectAll(s, parent, kids);
      d.Chosen? ==> Shaped(s, d.tree.consumers) && UnderOne(d.tree.consumers, kids) && d.tree.covered >= 0
    decreases s.maxDepth - |parent|, 0, |kids|
  {
    hide Select, NearestParent, Shaped, UnderOne, Distinct;
    if kids != [] {
      var n := |kids| - 1;
      LastIsNew(kids);
      SelectAllShaped(s, parent, kids[..n]);
      SelectShaped(s, kids[n]);
      if SelectAll(s, parent, kids).Chosen? {
        ShapesApart(s, parent, kids[..n], kids[n], SelectAll(s, parent, kids[..n]).tree.consumers,
                    Select(s, kids[n]).tree.consumers);
        assert kids[..n] + [kids[n]] == kids;
      }
    } else {
      EmptyShaped(s);
    }
  }

  lemma LastIsNew(kids: seq<Path>)
    requires Distinct(kids) && kids != []
    ensures Distinct(kids[..|kids| - 1]) && kids[|kids| - 1] !in kids[..|kids| - 1]
  {
  }

  lemma EmptyShaped(s: Scan)
    ensures Shaped(s, []) && UnderOne([], [])
  {
  }

  lemma {:induction false} SelectShaped(s: Scan, path: Path)
    requires s.Valid() && path in s.order
    ensures var d := Select(s, path);
      d.Chosen? ==> Shaped(s, d.tree.consumers) && UnderOne(d.tree.consumers, [path]) && d.tree.covered >= 0
    decreases s.maxDepth - |path|, 1, 0
  {
    hide Decide, NearestParent, ChildrenIn, Shaped, UnderOne, Distinct;
    assert Distinct(s.order) by { ValidDistinct(s); }
    ChildrenDistinct(s.order, s.Present(), path);
    SelectAllShaped(s, path, Children(s, path));
    var below := SelectAll(s, path, Children(s, path));
    if below.Chosen? {
      DecideShaped(s, path, below.tree, Children(s, path));
    }
  }

  lemma ValidDistinct(s: Scan)
    requires s.Valid()
    ensures Distinct(s.order)
  {
  }

  lemma {:induction false} ChildrenDistinct(order: seq<Path>, present: set<Path>, parent: Path)
    requires Distinct(order)
    ensures Distinct(ChildrenIn(order, present, parent))
  {
    hide NearestParent;
    if order != [] {
      var n := |order| - 1;
      ChildrenDistinct(order[..n], present, parent);
      assert order[n] !in order[..n];
      var earlier := ChildrenIn(order[..n], present, parent);
      assert forall i :: 0 <= i < |earlier| ==> earlier[i] in order[..n];
    }
  }

  // ---- Requested paths -----------------------------------------------------------------------------

  /** A retained request keeps everything chosen below it. */
  lemma DecideRetains(s: Scan, path: Path, below: Subtree)
    requires s.Valid() && path in s.byPath && below.hasRequested && Decide(s, path, below).Chosen?
    ensures Decide(s, path, below).tree.hasRequested
    ensures forall c <- below.consumers :: c in Decide(s, path, below).tree.consumers
  {
    hide CapFor, ExceedsShare;
  }

  lemma {:induction false} AllRetain(s: Scan, parent: Path, kids: seq<Path>, kid: Path)
    requires s.Valid() && |parent| <= s.maxDepth && kid in kids
    requires forall k <- kids :: k in s.order && parent < k
    requires SelectAll(s, parent, kids).Chosen? && Select(s, kid).Chosen? && Select(s, kid).tree.hasRequested
    ensures SelectAll(s, parent, kids).tree.hasRequested
    ensures forall c <- Select(s, kid).tree.consumers :: c in SelectAll(s, parent, kids).tree.consumers
    decreases |kids|
  {
    hide Select;
    var n := |kids| - 1;
    if kids[n] != kid {
      assert forall k <- kids[..n] :: k in kids;
      AllRetain(s, parent, kids[..n], kid);
    }
  }

  /** What is chosen below a path that retained a request is still there at its nearest ancestor. */
  lemma OneUp(s: Scan, path: Path)
    requires s.Valid() && path in s.order
    requires Select(s, path).Chosen? && Select(s, path).tree.hasRequested
    requires Select(s, NearestParent(path, s.Present())).Chosen?
    ensures var up := Select(s, NearestParent(path, s.Present()));
      up.tree.hasRequested && forall c <- Select(s, path).tree.consumers :: c in up.tree.consumers
  {
    hide Decide, ChildrenIn, NearestParent;
    var parent := NearestParent(path, s.Present());
    var kids := Children(s, parent);
    AllRetain(s, parent, kids, path);
    if parent != [] {
      DecideRetains(s, parent, SelectAll(s, parent, kids).tree);
    }
  }

  /** An entry for a requested path is never collapsed away: it reaches the report. */
  lemma {:induction false} RequestedSurvives(s: Scan, path: Path, c: Consumer)
    requires s.Valid() && path in s.order && Select(s, []).Chosen?
    requires Select(s, path).Chosen? && Select(s, path).tree.hasRequested && c in Select(s, path).tree.consumers
    ensures c in Select(s, []).tree.consumers
    decreases |path|
  {
    hide Decide, ChildrenIn, NearestParent, Select;
    var parent := NearestParent(path, s.Present());
    if parent != [] && Select(s, parent).Inconsistent? {
      InconsistentUp(s, parent);
    }
    OneUp(s, path);
    if parent != [] {
      RequestedSurvives(s, parent, c);
    }
  }

  /** A requested path that is emitted retains its request. */
  lemma EmittedRequest(s: Scan, path: Path, below: Subtree, c: Consumer)
    requires s.Valid() && path in s.byPath && path in s.requested
    requires var d := Decide(s, path, below); d.Chosen? && c in d.tree.consumers && c !in below.consumers
    ensures Decide(s, path, below).tree.hasRequested && c.path == path
  {
    hide CapFor, ExceedsShare;
  }

  // ---- The report ----------------------------------------------------------------------------------

  lemma RootWithin(s: Scan)
    requires s.Valid() && Additive(s)
    ensures Select(s, []).Chosen? && Sum(Select(s, []).tree.consumers) + s.byPath[[]].direct <= s.used
  {
    hide ChildrenIn, NearestParent;
    SelectAllWithin(s, [], Children(s, []));
  }

  lemma RootShaped(s: Scan)
    requires s.Valid()
    ensures var d := Select(s, []);
      d.Chosen? ==> Shaped(s, d.tree.consumers) && forall c <- d.tree.consumers :: c.path != []
  {
    hide NearestParent, ChildrenIn, Shaped;
    ValidDistinct(s);
    ChildrenDistinct(s.order, s.Present(), []);
    SelectAllShaped(s, [], Children(s, []));
  }

  /** The chosen entries, and the files lying directly in the root when they stand out by themselves. */
  function Report(s: Scan): seq<Consumer>
    requires s.Valid() && Select(s, []).Chosen?
  {
    var direct := s.byPath[[]].direct;
    var cap := CapFor(s.policy, []);
    Select(s, []).tree.consumers
    + (if Qualifies(direct, cap, s.floor, s.used) then [Consumer([], direct, cap, RootFiles)] else [])
  }

  /** Nothing is reported twice and everything reported fits the used space. */
  lemma ReportWithin(s: Scan)
    requires s.Valid() && Additive(s)
    ensures Select(s, []).Chosen? && Sum(Report(s)) <= s.used
  {
    hide Select, Additive, CapFor, ExceedsShare;
    RootWithin(s);
    var root := Consumer([], s.byPath[[]].direct, CapFor(s.policy, []), RootFiles);
    SumOne(root);
    SumConcat(Select(s, []).tree.consumers, [root]);
    assert Select(s, []).tree.consumers + [] == Select(s, []).tree.consumers;
  }

  /** The checks made row by row before anything is chosen. The root's own row is a bucket for its direct files. */
  predicate RowConsistent(s: Scan, path: Path)
    requires s.Valid() && path in s.byPath
  {
    var row := s.byPath[path];
    && row.direct <= row.total && row.total <= s.used
    && (path != [] ==>
          var parent := NearestParent(path, s.Present());
          parent != [] ==> row.total <= s.byPath[parent].total)
  }

  predicate Consistent(s: Scan)
    requires s.Valid()
  {
    forall p <- s.byPath :: RowConsistent(s, p)
  }

  method CheckConsistent(s: Scan) returns (ok: bool)
    requires s.Valid()
    ensures ok == Consistent(s)
  {
    var todo := s.byPath.Keys;
    while todo != {}
      invariant todo <= s.byPath.Keys
      invariant forall p <- s.byPath :: p !in todo ==> RowConsistent(s, p)
      decreases |todo|
    {
      var path :| path in todo;
      todo := todo - {path};
      if !RowConsistent(s, path) {
        return false;
      }
    }
    ok := true;
  }

  // ---- When the measurements contradict each other -------------------------------------------------

  /** What a subtree claims: the bytes of its entries, the bytes covered as expected, and what it reports upwards. */
  datatype Claim = Claim(chosen: nat, covered: nat, requested: bool, normal: bool)

  predicate IsNormal(s: Scan, path: Path)
    requires s.Valid() && path in s.byPath
  {
    s.normalAllowed && path in s.policy.caps && !ExceedsShare(s.byPath[path].total, s.policy.caps[path], s.used)
  }

  /** Whether the directory is to be split into what is claimed below it and the rest. */
  predicate IsSplit(s: Scan, path: Path, below: Claim)
    requires s.Valid() && path in s.byPath
  {
    && Qualifies(s.byPath[path].total, CapFor(s.policy, path), s.floor, s.used)
    && (below.covered > 0 || below.requested || path in s.requested || below.normal)
  }

  /** The sizes alone say what a directory claims; no entries are made. */
  function ClaimAt(s: Scan, path: Path, below: Claim): Claim
    requires s.Valid() && path in s.byPath
  {
    var size, cap := s.byPath[path].total, CapFor(s.policy, path);
    if IsNormal(s, path) then
      below.(covered := if size > below.chosen then size - below.chosen else 0, normal := true)
    else if IsSplit(s, path, below) then
      var rest := size - below.chosen - below.covered;
      below.(chosen := below.chosen + (if Qualifies(rest, cap, s.floor, s.used) then rest else 0),
             requested := below.requested || path in s.requested)
    else if !Qualifies(size, cap, s.floor, s.used) || below.chosen * 100 >= size * 70 then below
    else Claim(size, 0, false, false)
  }

  function JoinedClaim(a: Claim, b: Claim): Claim {
    Claim(a.chosen + b.chosen, a.covered + b.covered, a.requested || b.requested, a.normal || b.normal)
  }

  function ClaimAll(s: Scan, parent: Path, kids: seq<Path>): Claim
    requires s.Valid() && |parent| <= s.maxDepth
    requires forall k <- kids :: k in s.order && parent < k
    decreases s.maxDepth - |parent|, 0, |kids|
  {
    if kids == [] then Claim(0, 0, false, false)
    else
      JoinedClaim(ClaimAll(s, parent, kids[..|kids| - 1]), ClaimOf(s, kids[|kids| - 1]))
  }

  function ClaimOf(s: Scan, path: Path): Claim
    requires s.Valid() && |path| <= s.maxDepth && path in s.byPath && path != []
    decreases s.maxDepth - |path|, 1, 0
  {
    ClaimAt(s, path, ClaimAll(s, path, Children(s, path)))
  }

  /** More is claimed below a directory than it holds, and the directory is one that is compared with it. */
  predicate Overcommitted(s: Scan, path: Path)
    requires s.Valid() && path in s.order
  {
    var below := ClaimAll(s, path, Children(s, path));
    if IsNormal(s, path) then below.chosen > s.byPath[path].total
    else IsSplit(s, path, below) && below.chosen + below.covered > s.byPath[path].total
  }

  /** A choice makes exactly the entries its claim says. */
  predicate Claims(tree: Subtree, claim: Claim) {
    && Sum(tree.consumers) == claim.chosen && tree.covered == claim.covered
    && tree.hasRequested == claim.requested && tree.hasNormal == claim.normal
  }

  lemma DecideClaims(s: Scan, path: Path, below: Subtree, claim: Claim)
    requires s.Valid() && path in s.byPath && Claims(below, claim)
    ensures Decide(s, path, below).Inconsistent? <==>
      if IsNormal(s, path) then claim.chosen > s.byPath[path].total
      else IsSplit(s, path, claim) && claim.chosen + claim.covered > s.byPath[path].total
    ensures Decide(s, path, below).Chosen? ==> Claims(Decide(s, path, below).tree, ClaimAt(s, path, claim))
  {
    hide CapFor, ExceedsShare;
    var cap := CapFor(s.policy, path);
    forall size: nat, kind: Kind
      ensures Sum([Consumer(path, size, cap, kind)]) == size
      ensures Sum(below.consumers + [Consumer(path, size, cap, kind)]) == Sum(below.consumers) + size
    {
      SumOne(Consumer(path, size, cap, kind));
      SumConcat(below.consumers, [Consumer(path, size, cap, kind)]);
    }
  }

  /** A subtree without an overcommitted directory is chosen from as its claim says. */
  lemma {:induction false} SelectClaims(s: Scan, path: Path)
    requires s.Valid() && path in s.order
    ensures Select(s, path).Chosen? ==> Claims(Select(s, path).tree, ClaimOf(s, path))
    ensures Overcommitted(s, path) ==> Select(s, path).Inconsistent?
    ensures Select(s, path).Inconsistent? ==> exists p <- s.order :: Overcommitted(s, p)
    decreases s.maxDepth - |path|, 1, 0
  {
    hide Decide, ChildrenIn, ClaimAt, IsNormal, IsSplit;
    var kids := Children(s, path);
    AllClaim(s, path, kids);
    var below := SelectAll(s, path, kids);
    if below.Chosen? {
      DecideClaims(s, path, below.tree, ClaimAll(s, path, kids));
    }
  }

  lemma {:induction false} AllClaim(s: Scan, parent: Path, kids: seq<Path>)
    requires s.Valid() && |parent| <= s.maxDepth
    requires forall k <- kids :: k in s.order && parent < k
    ensures SelectAll(s, parent, kids).Chosen? ==> Claims(SelectAll(s, parent, kids).tree, ClaimAll(s, parent, kids))
    ensures SelectAll(s, parent, kids).Inconsistent? ==> exists p <- s.order :: Overcommitted(s, p)
    decreases s.maxDepth - |parent|, 0, |kids|
  {
    hide Select, ClaimOf, Overcommitted, Claims;
    if kids == [] {
      NothingClaimed();
    } else {
      var n := |kids| - 1;
      assert forall k <- kids[..n] :: k in kids;
      AllClaim(s, parent, kids[..n]);
      SelectClaims(s, kids[n]);
      if SelectAll(s, parent, kids[..n]).Chosen? && Select(s, kids[n]).Chosen? {
        JoinClaims(SelectAll(s, parent, kids[..n]), Select(s, kids[n]), ClaimAll(s, parent, kids[..n]),
                   ClaimOf(s, kids[n]));
      }
    }
  }

  lemma NothingClaimed()
    ensures Claims(Subtree([], 0, false, false), Claim(0, 0, false, false))
  {
  }

  lemma JoinClaims(a: Choice, b: Choice, c: Claim, d: Claim)
    requires a.Chosen? && b.Chosen? && Claims(a.tree, c) && Claims(b.tree, d)
    ensures Claims(Join(a, b).tree, JoinedClaim(c, d))
  {
    SumConcat(a.tree.consumers, b.tree.consumers);
  }

  /** A contradiction anywhere is one everywhere above. */
  lemma {:induction false} AllInconsistent(s: Scan, parent: Path, kids: seq<Path>, kid: Path)
    requires s.Valid() && |parent| <= s.maxDepth && kid in kids
    requires forall k <- kids :: k in s.order && parent < k
    requires Select(s, kid).Inconsistent?
    ensures SelectAll(s, parent, kids).Inconsistent?
    decreases |kids|
  {
    hide Select;
    if kids[|kids| - 1] != kid {
      assert forall k <- kids[..|kids| - 1] :: k in kids;
      AllInconsistent(s, parent, kids[..|kids| - 1], kid);
    }
  }

  lemma {:induction false} InconsistentUp(s: Scan, path: Path)
    requires s.Valid() && path in s.order && Select(s, path).Inconsistent?
    ensures Select(s, []).Inconsistent?
    decreases |path|
  {
    hide Decide, ChildrenIn, NearestParent;
    var parent := NearestParent(path, s.Present());
    AllInconsistent(s, parent, Children(s, parent), path);
    assert Select(s, parent).Inconsistent?;
    if parent != [] {
      InconsistentUp(s, parent);
    }
  }

  /** The measurements contradict each other exactly if some directory is overcommitted. */
  lemma ContradictionExactly(s: Scan)
    requires s.Valid()
    ensures Select(s, []).Inconsistent? <==> exists p <- s.order :: Overcommitted(s, p)
  {
    hide Overcommitted, ChildrenIn, ClaimAll;
    AllClaim(s, [], Children(s, []));
    if exists p <- s.order :: Overcommitted(s, p) {
      var p :| p in s.order && Overcommitted(s, p);
      SelectClaims(s, p);
      InconsistentUp(s, p);
    }
  }

  // ---- The entries' sizes --------------------------------------------------------------------------

  predicate AllWithin(consumers: seq<Consumer>, used: nat) {
    forall c <- consumers :: c.size <= used
  }

  lemma {:induction false} EntriesWithinUsed(s: Scan, path: Path)
    requires s.Valid() && Consistent(s) && |path| <= s.maxDepth && path in s.byPath
    ensures Select(s, path).Chosen? ==> AllWithin(Select(s, path).tree.consumers, s.used)
    decreases s.maxDepth - |path|, 1, 0
  {
    hide Consistent, ChildrenIn, Decide, AllWithin;
    AllEntriesWithinUsed(s, path, Children(s, path));
    RowOfConsistent(s, path);
    DecideCovered(s, path);
    var below := SelectAll(s, path, Children(s, path));
    if below.Chosen? {
      DecideFits(s, path, below.tree);
    }
  }

  lemma DecideFits(s: Scan, path: Path, below: Subtree)
    requires s.Valid() && path in s.byPath && s.byPath[path].total <= s.used
    requires AllWithin(below.consumers, s.used) && below.covered >= 0
    ensures Decide(s, path, below).Chosen? ==> AllWithin(Decide(s, path, below).tree.consumers, s.used)
  {
    hide CapFor, ExceedsShare, Qualifies;
  }

  lemma RowOfConsistent(s: Scan, path: Path)
    requires s.Valid() && Consistent(s) && path in s.byPath
    ensures RowConsistent(s, path) && s.byPath[path].total <= s.used && s.byPath[path].direct <= s.used
  {
  }

  /** What is covered is never negative. */
  lemma DecideCovered(s: Scan, path: Path)
    requires s.Valid() && |path| <= s.maxDepth && path in s.byPath
    ensures SelectAll(s, path, Children(s, path)).Chosen? ==> SelectAll(s, path, Children(s, path)).tree.covered >= 0
  {
    hide Select, ChildrenIn;
    AllClaim(s, path, Children(s, path));
  }

  lemma {:induction false} AllEntriesWithinUsed(s: Scan, parent: Path, kids: seq<Path>)
    requires s.Valid() && Consistent(s) && |parent| <= s.maxDepth
    requires forall k <- kids :: k in s.order && parent < k
    ensures SelectAll(s, parent, kids).Chosen? ==> AllWithin(SelectAll(s, parent, kids).tree.consumers, s.used)
    decreases s.maxDepth - |parent|, 0, |kids|
  {
    hide Select, Consistent;
    if kids != [] {
      assert forall k <- kids[..|kids| - 1] :: k in kids;
      AllEntriesWithinUsed(s, parent, kids[..|kids| - 1]);
      EntriesWithinUsed(s, kids[|kids| - 1]);
    }
  }

  /** Why a report could not be made. */
  datatype Failure = InconsistentRows | Contradiction | DuplicatePath | ShareOutOfRange

  /**
   Check the rows, choose, add the root files, and check every entry again. With consistent rows one failure is left,
   and it happens exactly if some directory is overcommitted; the checks on the entries never fail. Where the rows also
   add up the report is made, and together its entries fit the used space.
   */
  method FilterStrict(s: Scan) returns (entries: seq<Consumer>, failure: Option<Failure>)
    requires s.Valid()
    ensures failure !in {Some(DuplicatePath), Some(ShareOutOfRange)}
    ensures failure.None? ==> Select(s, []).Chosen? && entries == Report(s)
    ensures failure == Some(InconsistentRows) <==> !Consistent(s)
    ensures failure == Some(Contradiction) <==> Consistent(s) && exists p <- s.order :: Overcommitted(s, p)
    ensures Additive(s) && Consistent(s) ==> failure.None? && Sum(entries) <= s.used
  {
    hide Select, Additive, Report, CapFor, ExceedsShare, Shaped, Consistent, Overcommitted;
    entries := [];
    ContradictionExactly(s);
    var consistent := CheckConsistent(s);
    if !consistent {
      return [], Some(InconsistentRows);
    }
    var choice := Select(s, []);
    RootShaped(s);
    if choice.Inconsistent? {
      if Additive(s) {
        RootWithin(s);
      }
      return [], Some(Contradiction);
    }
    var consumers := Report(s);
    var seen: set<Path> := {};
    for i := 0 to |consumers|
      invariant entries == consumers[..i] && seen == set c <- consumers[..i] :: c.path
    {
      ReportDistinct(s, i);
      if consumers[i].path in seen {
        return entries, Some(DuplicatePath);
      }
      ReportWithinUsed(s, i);
      if consumers[i].size > s.used {
        return entries, Some(ShareOutOfRange);
      }
      seen := seen + {consumers[i].path};
      entries := entries + [consumers[i]];
    }
    if Additive(s) {
      ReportWithin(s);
    }
    failure := None;
  }

  lemma ReportWithinUsed(s: Scan, i: nat)
    requires s.Valid() && Consistent(s) && Select(s, []).Chosen? && i < |Report(s)|
    ensures Report(s)[i].size <= s.used
  {
    hide Select, CapFor, ExceedsShare, Consistent;
    EntriesWithinUsed(s, []);
    RowOfConsistent(s, []);
    assert i < |Select(s, []).tree.consumers| ==> Report(s)[i] in Select(s, []).tree.consumers;
  }

  lemma ReportDistinct(s: Scan, i: nat)
    requires s.Valid() && Select(s, []).Chosen? && i < |Report(s)|
    ensures forall j :: 0 <= j < i ==> Report(s)[j].path != Report(s)[i].path
  {
    hide Select, CapFor, ExceedsShare, Qualifies;
    RootShaped(s);
  }

  // ---- Why the row checks are not enough -----------------------------------------------------------

  /** A leaf that qualifies and is not expected is chosen whole. */
  lemma LeafIsChosen(s: Scan, leaf: Path)
    requires s.Valid() && leaf in s.order && Children(s, leaf) == [] && leaf !in s.policy.caps
    requires Qualifies(s.byPath[leaf].total, CapFor(s.policy, leaf), s.floor, s.used)
    ensures Select(s, leaf)
         == Chosen(Subtree([Consumer(leaf, s.byPath[leaf].total, CapFor(s.policy, leaf), WholeDirectory)], 0,
                           leaf in s.requested, false))
  {
    hide CapFor, ExceedsShare, ChildrenIn;
  }

  /**
   One way to be overcommitted with rows that pass every check, each child no larger than its parent: two large
   children, one of them requested, that together exceed their parent. Then no report is made at all.
   */
  lemma LargeChildrenContradict(s: Scan, path: Path, a: Path, b: Path)
    requires s.Valid() && Consistent(s) && path in s.order && a in s.order && b in s.order && path !in s.policy.caps
    requires Children(s, path) == [a, b] && Children(s, a) == [] && Children(s, b) == []
    requires a !in s.policy.caps && b !in s.policy.caps && a in s.requested
    requires forall p <- [path, a, b] :: Qualifies(s.byPath[p].total, CapFor(s.policy, p), s.floor, s.used)
    requires s.byPath[a].total + s.byPath[b].total > s.byPath[path].total
    ensures Select(s, path) == Inconsistent && Select(s, []) == Inconsistent
  {
    hide CapFor, ExceedsShare, ChildrenIn, Decide, Select, Consistent;
    LeafIsChosen(s, a);
    LeafIsChosen(s, b);
    var left, right := Select(s, a), Select(s, b);
    assert path < a && path < b;
    TwoKids(s, path, a, b);
    SumOne(left.tree.consumers[0]);
    SumOne(right.tree.consumers[0]);
    SumConcat(left.tree.consumers, right.tree.consumers);
    TooLarge(s, path, Join(left, right).tree);
    OneLevel(s, path);
    InconsistentUp(s, path);
  }

  /** A directory of 60 bytes said to hold two of 50 bytes each, one of them requested. */
  function Example(home: string, left: string, right: string): Scan {
    Scan(map[[] := Directory([], 100, 0), [home] := Directory([home], 60, 0),
             [home, left] := Directory([home, left], 50, 50), [home, right] := Directory([home, right], 50, 50)],
         [[home], [home, left], [home, right]], SharePolicy(map[], 5.0), {[home, left]}, 1, 100, false, 2)
  }

  /** It is such a scan: every row passes its check, and there is no report. */
  lemma ConsistentYetContradictory(home: string, left: string, right: string)
    requires left != right
    ensures var s := Example(home, left, right); s.Valid() && Consistent(s) && Select(s, []) == Inconsistent
  {
    hide Select, ChildrenIn, NearestParent, Children;
    var s, path, a, b := Example(home, left, right), [home], [home, left], [home, right];
    assert a[1] != b[1];
    ExampleParents(home, left, right);
    ExampleChildren(s, path, a, b);
    NoCaps(path);
    NoCaps(a);
    NoCaps(b);
    LargeChildrenContradict(s, path, a, b);
  }

  lemma {:induction false} NoCaps(path: Path)
    ensures ExpectedShare(map[], path).None?
  {
    if path != [] {
      NoCaps(path[..|path| - 1]);
    }
  }

  lemma ExampleParents(home: string, left: string, right: string)
    ensures var present := Example(home, left, right).Present();
      && NearestParent([home], present) == []
      && NearestParent([home, left], present) == [home] && NearestParent([home, right], present) == [home]
  {
    assert [home][..0] == [] && [home, left][..1] == [home] && [home, right][..1] == [home];
  }

  lemma OneMoreKid(order: seq<Path>, last: Path, present: set<Path>, parent: Path)
    ensures ChildrenIn(order + [last], present, parent)
         == ChildrenIn(order, present, parent) + (if NearestParent(last, present) == parent then [last] else [])
  {
    hide NearestParent;
    assert (order + [last])[..|order|] == order;
  }

  lemma ThreeKids(a: Path, b: Path, c: Path, present: set<Path>, parent: Path)
    ensures ChildrenIn([a, b, c], present, parent)
         == (if NearestParent(a, present) == parent then [a] else [])
            + (if NearestParent(b, present) == parent then [b] else [])
            + (if NearestParent(c, present) == parent then [c] else [])
  {
    hide NearestParent, ChildrenIn;
    NoKids(present, parent);
    OneMoreKid([], a, present, parent);
    OneMoreKid([a], b, present, parent);
    OneMoreKid([a, b], c, present, parent);
    assert [] + [a] == [a] && [a] + [b] == [a, b] && [a, b] + [c] == [a, b, c];
  }

  lemma ExampleChildren(s: Scan, path: Path, a: Path, b: Path)
    requires s.Valid() && s.order == [path, a, b] && path != [] && path != a && path != b && a != [] && b != []
    requires NearestParent(path, s.Present()) == []
    requires NearestParent(a, s.Present()) == path && NearestParent(b, s.Present()) == path
    ensures Children(s, path) == [a, b] && Children(s, a) == [] && Children(s, b) == []
  {
    hide NearestParent, ChildrenIn, Scan.Valid;
    ThreeKids(path, a, b, s.Present(), path);
    ThreeKids(path, a, b, s.Present(), a);
    ThreeKids(path, a, b, s.Present(), b);
  }

  lemma NoKids(present: set<Path>, parent: Path)
    ensures ChildrenIn([], present, parent) == []
  {
  }

  lemma TwoKids(s: Scan, parent: Path, a: Path, b: Path)
    requires s.Valid() && |parent| <= s.maxDepth && a in s.order && b in s.order && parent < a && parent < b
    requires Select(s, a).Chosen? && Select(s, b).Chosen?
    ensures SelectAll(s, parent, [a, b]) == Join(Select(s, a), Select(s, b))
  {
    hide Select;
    var ta := Select(s, a).tree;
    assert [] + ta.consumers == ta.consumers;
    assert [a][..0] == [];
    assert SelectAll(s, parent, [a]) == Select(s, a);
    assert [a, b][..1] == [a];
  }

  lemma OneLevel(s: Scan, path: Path)
    requires s.Valid() && path in s.order && SelectAll(s, path, Children(s, path)).Chosen?
    ensures Select(s, path) == Decide(s, path, SelectAll(s, path, Children(s, path)).tree)
  {
    hide Decide, ChildrenIn;
  }

  lemma TooLarge(s: Scan, path: Path, below: Subtree)
    requires s.Valid() && path in s.byPath && path !in s.policy.caps && below.hasRequested && below.covered == 0
    requires Qualifies(s.byPath[path].total, CapFor(s.policy, path), s.floor, s.used)
    requires Sum(below.consumers) > s.byPath[path].total
    ensures Decide(s, path, below) == Inconsistent
  {
    hide CapFor, ExceedsShare;
  }
}
