/** The tree diff of the fixture. */
module TreeDiff {
  import opened Wrappers

  // The tree diff of the evaluation fixture (backend/app/evals/fixture_api.py,
  // `_leaf_paths` and `_changed_paths`): nested mappings compared into a set of
  // dotted paths.

  datatype Tree<V> = Leaf(value: V) | Node(kids: map<string, Tree<V>>)

  function Child(prefix: string, key: string): string {
    if prefix == "" then key else prefix + "." + key
  }

  function LeafPaths<V>(t: Tree<V>, prefix: string): set<string> {
    match t
    case Leaf(_) => if prefix == "" then {} else {prefix}
    case Node(kids) => set k, p | k in kids && p in LeafPaths(kids[k], Child(prefix, k)) :: p
  }

  /** The paths reported for a subtree present on one side only. */
  function Whole<V>(t: Tree<V>, path: string): set<string> {
    if LeafPaths(t, path) == {} then {path} else LeafPaths(t, path)
  }

  function ChangedPaths<V(==)>(before: Tree<V>, after: Tree<V>, prefix: string): set<string>
    decreases before
  {
    if before.Node? && after.Node? then
      var b, a := before.kids, after.kids;
      (set k, p | k in a && k !in b && p in Whole(a[k], Child(prefix, k)) :: p)
      + (set k, p | k in b && k !in a && p in Whole(b[k], Child(prefix, k)) :: p)
      + (set k, p | k in b && k in a && p in ChangedPaths(b[k], a[k], Child(prefix, k)) :: p)
    else if before != after && prefix != "" then {prefix}
    else {}
  }

  /** A difference at the top can be named: there is a prefix, or both sides
      are mappings and one of them has no empty key. */
  predicate Nameable<V>(before: Tree<V>, after: Tree<V>, prefix: string) {
    prefix != "" || (before.Node? && after.Node? && ("" !in before.kids || "" !in after.kids))
  }

  /** One key's share of a diff is part of the diff. */
  lemma ShareIsReported<V>(before: Tree<V>, after: Tree<V>, prefix: string, k: string, p: string)
    requires before.Node? && after.Node? && (k in before.kids || k in after.kids)
    requires p in (if k !in before.kids then Whole(after.kids[k], Child(prefix, k))
                   else if k !in after.kids then Whole(before.kids[k], Child(prefix, k))
                   else ChangedPaths(before.kids[k], after.kids[k], Child(prefix, k)))
    ensures p in ChangedPaths(before, after, prefix)
  {
  }

  /** Between mappings with the same keys, a reported path is some key's share. */
  lemma ReportedIsShare<V>(before: Tree<V>, after: Tree<V>, prefix: string, p: string) returns (k: string)
    requires before.Node? && after.Node? && before.kids.Keys == after.kids.Keys
    requires p in ChangedPaths(before, after, prefix)
    ensures k in before.kids && p in ChangedPaths(before.kids[k], after.kids[k], Child(prefix, k))
  {
    var b, a := before.kids, after.kids;
    assert forall k :: k in a ==> k in b;
    k :| k in b && k in a && p in ChangedPaths(b[k], a[k], Child(prefix, k));
  }

  lemma {:induction false} EqualTreesDoNotDiffer<V>(t: Tree<V>, prefix: string)
    ensures ChangedPaths(t, t, prefix) == {}
  {
    if t.Node? {
      forall k | k in t.kids
        ensures ChangedPaths(t.kids[k], t.kids[k], Child(prefix, k)) == {}
      {
        EqualTreesDoNotDiffer(t.kids[k], Child(prefix, k));
      }
    }
  }

  lemma {:induction false} DifferentTreesDiffer<V>(before: Tree<V>, after: Tree<V>, prefix: string)
    requires Nameable(before, after, prefix) && before != after
    ensures ChangedPaths(before, after, prefix) != {}
    decreases before
  {
    if before.Node? && after.Node? {
      var b, a := before.kids, after.kids;
      assert b != a;
      if k :| k in b && k !in a {
        var p :| p in Whole(b[k], Child(prefix, k));
        ShareIsReported(before, after, prefix, k, p);
      } else if k :| k in a && k !in b {
        var p :| p in Whole(a[k], Child(prefix, k));
        ShareIsReported(before, after, prefix, k, p);
      } else {
        assert b.Keys == a.Keys;
        var k :| k in b && b[k] != a[k];
        DifferentTreesDiffer(b[k], a[k], Child(prefix, k));
        var p :| p in ChangedPaths(b[k], a[k], Child(prefix, k));
        ShareIsReported(before, after, prefix, k, p);
      }
    }
  }

  /** The diff is empty exactly when the trees are equal. */
  lemma EmptyIffEqual<V>(before: Tree<V>, after: Tree<V>, prefix: string)
    requires Nameable(before, after, prefix)
    ensures ChangedPaths(before, after, prefix) == {} <==> before == after
  {
    if before == after {
      EqualTreesDoNotDiffer(before, prefix);
    } else {
      DifferentTreesDiffer(before, after, prefix);
    }
  }

  /** The trees differ at most where no name can be given: along empty keys
      from the root, down to a place that is not a mapping on both sides. */
  predicate SameButEmptyKeys<V(==)>(before: Tree<V>, after: Tree<V>)
    decreases before
  {
    before.Node? && after.Node? ==>
      && before.kids - {""} == after.kids - {""}
      && ("" in before.kids <==> "" in after.kids)
      && ("" in before.kids && "" in after.kids ==> SameButEmptyKeys(before.kids[""], after.kids[""]))
  }

  /** A difference under a named key, or at a key one side lacks, is reported. */
  lemma NamedChangeIsReported<V>(before: Tree<V>, after: Tree<V>, k: string)
    requires before.Node? && after.Node? && (k in before.kids || k in after.kids)
    requires k in before.kids && k in after.kids ==> k != "" && before.kids[k] != after.kids[k]
    ensures ChangedPaths(before, after, "") != {}
  {
    var b, a := before.kids, after.kids;
    if k !in b {
      var p :| p in Whole(a[k], Child("", k));
      ShareIsReported(before, after, "", k, p);
    } else if k !in a {
      var p :| p in Whole(b[k], Child("", k));
      ShareIsReported(before, after, "", k, p);
    } else {
      DifferentTreesDiffer(b[k], a[k], k);
      var p :| p in ChangedPaths(b[k], a[k], Child("", k));
      ShareIsReported(before, after, "", k, p);
    }
  }

  /** Without a prefix, the diff is empty exactly when the trees differ at most along empty keys. */
  lemma {:induction false} EmptyIffSameButEmptyKeys<V>(before: Tree<V>, after: Tree<V>)
    ensures ChangedPaths(before, after, "") == {} <==> SameButEmptyKeys(before, after)
    decreases before
  {
    if before.Node? && after.Node? {
      var b, a := before.kids, after.kids;
      if k :| (k in b || k in a) && !(k in b && k in a && (k == "" || b[k] == a[k])) {
        NamedChangeIsReported(before, after, k);
        assert SameButEmptyKeys(before, after) ==> (k in b - {""} <==> k in a - {""});
      } else {
        assert b - {""} == a - {""};
        if "" in b {
          EmptyIffSameButEmptyKeys(b[""], a[""]);
        }
        NamedSharesAreEmpty(before, after);
      }
    }
  }

  lemma NamedSharesAreEmpty<V>(before: Tree<V>, after: Tree<V>)
    requires before.Node? && after.Node? && before.kids.Keys == after.kids.Keys
    requires forall k :: k in before.kids && k != "" ==> before.kids[k] == after.kids[k]
    ensures ChangedPaths(before, after, "") ==
            if "" in before.kids then ChangedPaths(before.kids[""], after.kids[""], "") else {}
  {
    var share := if "" in before.kids then ChangedPaths(before.kids[""], after.kids[""], "") else {};
    forall p
      ensures p in ChangedPaths(before, after, "") <==> p in share
    {
      if p in ChangedPaths(before, after, "") {
        var k := ReportedIsShare(before, after, "", p);
        EqualTreesDoNotDiffer(before.kids[k], Child("", k));
      } else if p in share {
        ShareIsReported(before, after, "", "", p);
      }
    }
  }

  /** Another value for an empty key, as unlike the old one as no diff can tell. */
  function Unseen<V>(t: Tree<V>, v: V): Tree<V> {
    if t.Node? then Leaf(v) else Node(map[])
  }

  /** A mapping can change without a report exactly when it has an empty key. */
  lemma EveryChangeShowsIff<V>(before: Tree<V>, v: V)
    requires before.Node?
    ensures (forall after: Tree<V> :: after.Node? && ChangedPaths(before, after, "") == {} ==> after == before)
            <==> "" !in before.kids
  {
    if "" in before.kids {
      var after := Node(before.kids["" := Unseen(before.kids[""], v)]);
      assert after.kids - {""} == before.kids - {""};
      EmptyIffSameButEmptyKeys(before, after);
      assert after.kids[""] != before.kids[""];
    } else {
      forall after: Tree<V> | after.Node? && ChangedPaths(before, after, "") == {}
        ensures after == before
      {
        EmptyIffEqual(before, after, "");
      }
    }
  }

  /** For instance: a leaf below an empty root key. */
  lemma EmptyKeyHidesAChange()
    ensures var before, after := Node(map["" := Leaf(1)]), Node(map["" := Leaf(2)]);
            before != after && ChangedPaths(before, after, "") == {}
  {
    var before, after := Node(map["" := Leaf(1)]), Node(map["" := Leaf(2)]);
    assert before.kids[""] != after.kids[""];
    assert before.kids - {""} == after.kids - {""};
    EmptyIffSameButEmptyKeys(before, after);
  }

  lemma {:induction false} DiffIsSymmetric<V>(before: Tree<V>, after: Tree<V>, prefix: string)
    ensures ChangedPaths(before, after, prefix) == ChangedPaths(after, before, prefix)
    decreases before
  {
    if before.Node? && after.Node? {
      forall k | k in before.kids && k in after.kids
        ensures ChangedPaths(before.kids[k], after.kids[k], Child(prefix, k)) == ChangedPaths(after.kids[k], before.kids[k], Child(prefix, k))
      {
        DiffIsSymmetric(before.kids[k], after.kids[k], Child(prefix, k));
      }
    }
  }

  // ---- Paths as key sequences --------------------------------------------------

  /** The subtree at a key path. */
  function At<V>(t: Tree<V>, path: seq<string>): Option<Tree<V>> {
    if path == [] then Some(t)
    else if t.Node? && path[0] in t.kids then At(t.kids[path[0]], path[1..])
    else None
  }

  function Dotted(prefix: string, path: seq<string>): string
    decreases |path|
  {
    if path == [] then prefix else Dotted(Child(prefix, path[0]), path[1..])
  }

  predicate DotFree(path: seq<string>) {
    forall i :: 0 <= i < |path| ==> path[i] != "" && '.' !in path[i]
  }

  predicate DotFreeKeys<V>(t: Tree<V>) {
    t.Node? ==> forall k :: k in t.kids ==> k != "" && '.' !in k && DotFreeKeys(t.kids[k])
  }

  /** Every leaf path of a tree is the dotted form of a key path that leads somewhere. */
  lemma {:induction false} LeafPathLeads<V>(t: Tree<V>, prefix: string, p: string) returns (path: seq<string>)
    requires p in LeafPaths(t, prefix) && DotFreeKeys(t)
    ensures p == Dotted(prefix, path) && At(t, path).Some? && DotFree(path)
  {
    if t.Leaf? {
      path := [];
    } else {
      var k :| k in t.kids && p in LeafPaths(t.kids[k], Child(prefix, k));
      var rest := LeafPathLeads(t.kids[k], Child(prefix, k), p);
      path := [k] + rest;
      assert path[1..] == rest;
    }
  }

  lemma {:induction false} WholeLeads<V>(t: Tree<V>, prefix: string, p: string) returns (path: seq<string>)
    requires p in Whole(t, prefix) && DotFreeKeys(t)
    ensures p == Dotted(prefix, path) && At(t, path).Some? && DotFree(path)
  {
    if LeafPaths(t, prefix) == {} {
      path := [];
    } else {
      path := LeafPathLeads(t, prefix, p);
    }
  }

  /** Every reported path leads to a place where the two trees differ. */
  lemma {:induction false} ReportedDiffers<V>(before: Tree<V>, after: Tree<V>, prefix: string, p: string) returns (path: seq<string>)
    requires p in ChangedPaths(before, after, prefix) && DotFreeKeys(before) && DotFreeKeys(after)
    ensures p == Dotted(prefix, path) && At(before, path) != At(after, path) && DotFree(path)
    decreases before
  {
    path := [];
    if before.Node? && after.Node? {
      var b, a := before.kids, after.kids;
      if k :| k in a && k !in b && p in Whole(a[k], Child(prefix, k)) {
        var rest := WholeLeads(a[k], Child(prefix, k), p);
        path := [k] + rest;
        assert path[1..] == rest;
      } else if k :| k in b && k !in a && p in Whole(b[k], Child(prefix, k)) {
        var rest := WholeLeads(b[k], Child(prefix, k), p);
        path := [k] + rest;
        assert path[1..] == rest;
      } else {
        var k :| k in b && k in a && p in ChangedPaths(b[k], a[k], Child(prefix, k));
        var rest := ReportedDiffers(b[k], a[k], Child(prefix, k), p);
        path := [k] + rest;
        assert path[1..] == rest;
      }
    }
  }

  /** What follows a non-empty prefix in a dotted path. */
  function Suffix(path: seq<string>): string {
    if path == [] then "" else "." + path[0] + Suffix(path[1..])
  }

  lemma {:induction false} DottedIsSuffix(prefix: string, path: seq<string>)
    requires prefix != ""
    ensures Dotted(prefix, path) == prefix + Suffix(path)
    decreases |path|
  {
    if path != [] {
      DottedIsSuffix(Child(prefix, path[0]), path[1..]);
      assert prefix + "." + path[0] + Suffix(path[1..]) == prefix + ("." + path[0] + Suffix(path[1..]));
    } else {
      assert prefix + "" == prefix;
    }
  }

  lemma HeadIsNotShorter(a: string, s: string, b: string, t: string)
    requires '.' !in b && (s == "" || s[0] == '.') && a + s == b + t
    ensures |a| >= |b|
  {
    assert |a| + |s| == |a + s| == |b| + |t|;
    assert s != "" ==> (a + s)[|a|] == '.';
    assert forall i :: 0 <= i < |b| ==> (b + t)[i] == b[i] && b[i] != '.';
  }

  /** A dot-free key followed by nothing or by a dot is determined by the text. */
  lemma HeadIsDetermined(a: string, s: string, b: string, t: string)
    requires '.' !in a && '.' !in b && (s == "" || s[0] == '.') && (t == "" || t[0] == '.')
    requires a + s == b + t
    ensures a == b && s == t
  {
    HeadIsNotShorter(a, s, b, t);
    HeadIsNotShorter(b, t, a, s);
    assert (a + s)[..|a|] == a && (b + t)[..|b|] == b;
    assert (a + s)[|a|..] == s && (b + t)[|b|..] == t;
  }

  lemma {:induction false} SuffixIsInjective(p: seq<string>, q: seq<string>)
    requires DotFree(p) && DotFree(q) && Suffix(p) == Suffix(q)
    ensures p == q
    decreases |p|
  {
    if p != [] && q != [] {
      var s, t := p[0] + Suffix(p[1..]), q[0] + Suffix(q[1..]);
      assert Suffix(p) == "." + s && Suffix(q) == "." + t;
      assert s == Suffix(p)[1..] && t == Suffix(q)[1..];
      HeadIsDetermined(p[0], Suffix(p[1..]), q[0], Suffix(q[1..]));
      SuffixIsInjective(p[1..], q[1..]);
      assert p == [p[0]] + p[1..] && q == [q[0]] + q[1..];
    }
  }

  /** Dot-free key paths print to distinct dotted paths. */
  lemma DottedIsInjective(p: seq<string>, q: seq<string>)
    requires DotFree(p) && DotFree(q) && Dotted("", p) == Dotted("", q)
    ensures p == q
  {
    if p != [] {
      DottedIsSuffix(p[0], p[1..]);
    }
    if q != [] {
      DottedIsSuffix(q[0], q[1..]);
    }
    if p != [] && q != [] {
      HeadIsDetermined(p[0], Suffix(p[1..]), q[0], Suffix(q[1..]));
      SuffixIsInjective(p[1..], q[1..]);
      assert p == [p[0]] + p[1..] && q == [q[0]] + q[1..];
    }
  }

  lemma {:induction false} DifferingLeafIsReported<V>(before: Tree<V>, after: Tree<V>, prefix: string, path: seq<string>)
    requires At(before, path).Some? && At(after, path).Some? && At(before, path) != At(after, path)
    requires At(before, path).value.Leaf? || At(after, path).value.Leaf?
    requires DotFree(path) && (prefix != "" || path != [])
    ensures Dotted(prefix, path) in ChangedPaths(before, after, prefix)
    decreases before
  {
    if path != [] {
      var k := path[0];
      DifferingLeafIsReported(before.kids[k], after.kids[k], Child(prefix, k), path[1..]);
      ShareIsReported(before, after, prefix, k, Dotted(prefix, path));
    }
  }

  /** With dot-free keys, a leaf path of both trees is reported exactly when its value changed. */
  lemma LeafReportedIffChanged<V>(before: Tree<V>, after: Tree<V>, path: seq<string>)
    requires DotFreeKeys(before) && DotFreeKeys(after) && DotFree(path) && path != []
    requires At(before, path).Some? && At(before, path).value.Leaf? && At(after, path).Some? && At(after, path).value.Leaf?
    ensures Dotted("", path) in ChangedPaths(before, after, "")
            <==> At(before, path).value.value != At(after, path).value.value
  {
    if At(before, path) != At(after, path) {
      DifferingLeafIsReported(before, after, "", path);
    } else if Dotted("", path) in ChangedPaths(before, after, "") {
      var other := ReportedDiffers(before, after, "", Dotted("", path));
      DottedIsInjective(path, other);
      assert false;
    }
  }

  /** More generally, only paths at which the trees differ are ever reported. */
  lemma OnlyDifferencesAreReported<V>(before: Tree<V>, after: Tree<V>, path: seq<string>)
    requires DotFreeKeys(before) && DotFreeKeys(after) && DotFree(path)
    requires Dotted("", path) in ChangedPaths(before, after, "")
    ensures At(before, path) != At(after, path)
  {
    var other := ReportedDiffers(before, after, "", Dotted("", path));
    DottedIsInjective(path, other);
  }

  // ---- Exactly what is reported -------------------------------------------------------

  /** A leaf of the tree lies at the key path. */
  predicate LeafAt<V>(t: Tree<V>, path: seq<string>) {
    At(t, path).Some? && At(t, path).value.Leaf?
  }

  ghost predicate HasLeaf<V(!new)>(t: Tree<V>) {
    exists path :: LeafAt(t, path)
  }

  lemma LeafBelow<V>(t: Tree<V>, k: string, rest: seq<string>)
    requires t.Node? && k in t.kids
    ensures At(t, [k] + rest) == At(t.kids[k], rest) && LeafAt(t, [k] + rest) == LeafAt(t.kids[k], rest)
  {
    assert ([k] + rest)[1..] == rest;
  }

  lemma DottedBelow(prefix: string, k: string, rest: seq<string>)
    ensures Dotted(prefix, [k] + rest) == Dotted(Child(prefix, k), rest)
  {
    assert ([k] + rest)[1..] == rest;
  }

  lemma {:induction false} PathOfLeafPath<V>(t: Tree<V>, prefix: string, p: string) returns (path: seq<string>)
    requires p in LeafPaths(t, prefix)
    ensures LeafAt(t, path) && Dotted(prefix, path) == p && p != ""
  {
    if t.Leaf? {
      path := [];
    } else {
      var k :| k in t.kids && p in LeafPaths(t.kids[k], Child(prefix, k));
      var rest := PathOfLeafPath(t.kids[k], Child(prefix, k), p);
      LeafBelow(t, k, rest);
      DottedBelow(prefix, k, rest);
      path := [k] + rest;
    }
  }

  lemma {:induction false} LeafPathOfPath<V>(t: Tree<V>, prefix: string, path: seq<string>)
    requires LeafAt(t, path) && Dotted(prefix, path) != ""
    ensures Dotted(prefix, path) in LeafPaths(t, prefix)
    decreases |path|
  {
    if path != [] {
      LeafPathOfPath(t.kids[path[0]], Child(prefix, path[0]), path[1..]);
    }
  }

  /** The leaf paths of any tree are the dotted forms of the key paths to its leaves. */
  lemma LeafPathsIff<V(!new)>(t: Tree<V>, prefix: string, p: string)
    ensures p in LeafPaths(t, prefix) <==> p != "" && exists path :: LeafAt(t, path) && Dotted(prefix, path) == p
  {
    if p in LeafPaths(t, prefix) {
      var path := PathOfLeafPath(t, prefix, p);
    } else if p != "" {
      forall path | LeafAt(t, path)
        ensures Dotted(prefix, path) != p
      {
        if Dotted(prefix, path) == p {
          LeafPathOfPath(t, prefix, path);
        }
      }
    }
  }

  /** The place is reported: the trees differ there and one of them is no
      mapping; or it lies in a part that only one of them has, as a leaf, or as
      the top of a part without leaves. */
  ghost predicate ReportedAt<V(!new)>(before: Tree<V>, after: Tree<V>, path: seq<string>)
    decreases |path|
  {
    if path == [] then before != after && !(before.Node? && after.Node?)
    else
      && before.Node? && after.Node?
      && var k := path[0];
         if k in before.kids && k in after.kids then ReportedAt(before.kids[k], after.kids[k], path[1..])
         else if k in before.kids then PartAt(before.kids[k], path[1..])
         else k in after.kids && PartAt(after.kids[k], path[1..])
  }

  ghost predicate PartAt<V(!new)>(part: Tree<V>, path: seq<string>) {
    LeafAt(part, path) || (path == [] && !HasLeaf(part))
  }

  lemma {:induction false} DottedGrows(prefix: string, path: seq<string>)
    requires prefix != "" || (path != [] && path[0] != "")
    ensures Dotted(prefix, path) != ""
    decreases |path|
  {
    if path != [] {
      DottedGrows(Child(prefix, path[0]), path[1..]);
    }
  }

  lemma NoLeafPathsIff<V(!new)>(t: Tree<V>, prefix: string)
    requires prefix != ""
    ensures LeafPaths(t, prefix) == {} <==> !HasLeaf(t)
  {
    if path :| LeafAt(t, path) {
      DottedGrows(prefix, path);
      LeafPathOfPath(t, prefix, path);
    } else if LeafPaths(t, prefix) != {} {
      var p :| p in LeafPaths(t, prefix);
      var path := PathOfLeafPath(t, prefix, p);
    }
  }

  lemma WholePath<V(!new)>(t: Tree<V>, prefix: string, p: string) returns (path: seq<string>)
    requires prefix != "" && p in Whole(t, prefix)
    ensures PartAt(t, path) && Dotted(prefix, path) == p
  {
    NoLeafPathsIff(t, prefix);
    if LeafPaths(t, prefix) == {} {
      path := [];
    } else {
      path := PathOfLeafPath(t, prefix, p);
    }
  }

  lemma PartIsWhole<V(!new)>(t: Tree<V>, prefix: string, path: seq<string>)
    requires prefix != "" && PartAt(t, path)
    ensures Dotted(prefix, path) in Whole(t, prefix)
  {
    NoLeafPathsIff(t, prefix);
    if LeafAt(t, path) {
      DottedGrows(prefix, path);
      LeafPathOfPath(t, prefix, path);
    }
  }

  /** The keys at the top are not empty, or there is a prefix. */
  predicate Named<V>(before: Tree<V>, after: Tree<V>, prefix: string) {
    prefix != "" || (before.Node? && after.Node? && "" !in before.kids && "" !in after.kids)
  }

  lemma {:induction false} PlaceOfReport<V(!new)>(before: Tree<V>, after: Tree<V>, prefix: string, p: string) returns (path: seq<string>)
    requires Named(before, after, prefix) && p in ChangedPaths(before, after, prefix)
    ensures ReportedAt(before, after, path) && Dotted(prefix, path) == p
    decreases before
  {
    if before.Node? && after.Node? {
      var b, a := before.kids, after.kids;
      var rest;
      var k: string;
      if j :| j in a && j !in b && p in Whole(a[j], Child(prefix, j)) {
        k := j;
        rest := WholePath(a[k], Child(prefix, k), p);
      } else if j :| j in b && j !in a && p in Whole(b[j], Child(prefix, j)) {
        k := j;
        rest := WholePath(b[k], Child(prefix, k), p);
      } else {
        var j :| j in b && j in a && p in ChangedPaths(b[j], a[j], Child(prefix, j));
        k := j;
        rest := PlaceOfReport(b[k], a[k], Child(prefix, k), p);
      }
      path := [k] + rest;
      assert path[1..] == rest;
      DottedBelow(prefix, k, rest);
    } else {
      path := [];
    }
  }

  lemma {:induction false} ReportOfPlace<V(!new)>(before: Tree<V>, after: Tree<V>, prefix: string, path: seq<string>)
    requires Named(before, after, prefix) && ReportedAt(before, after, path)
    ensures Dotted(prefix, path) in ChangedPaths(before, after, prefix)
    decreases |path|
  {
    if path != [] {
      var k, rest := path[0], path[1..];
      if k in before.kids && k in after.kids {
        ReportOfPlace(before.kids[k], after.kids[k], Child(prefix, k), rest);
      } else if k in before.kids {
        PartIsWhole(before.kids[k], Child(prefix, k), rest);
      } else {
        PartIsWhole(after.kids[k], Child(prefix, k), rest);
      }
      ShareIsReported(before, after, prefix, k, Dotted(prefix, path));
    }
  }

  /** For any two trees whose roots have no empty key: the diff is exactly the
      dotted forms of the places where they differ. */
  lemma ReportedIff<V(!new)>(before: Tree<V>, after: Tree<V>, prefix: string, p: string)
    requires Named(before, after, prefix)
    ensures p in ChangedPaths(before, after, prefix)
            <==> exists path :: ReportedAt(before, after, path) && Dotted(prefix, path) == p
  {
    if p in ChangedPaths(before, after, prefix) {
      var path := PlaceOfReport(before, after, prefix, p);
    } else {
      forall path | ReportedAt(before, after, path)
        ensures Dotted(prefix, path) != p
      {
        ReportOfPlace(before, after, prefix, path);
      }
    }
  }
}
