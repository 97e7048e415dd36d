/** Self-referencing hierarchies (the chart of accounts, product categories) as the
    object graph the ORM loads: each node with its ordered collection of children.
    A node's parent is the node one step shorter on its path from the root. */
module Trees {
  import opened Text

  datatype Tree<T> = Node(value: T, children: seq<Tree<T>>)

  /** The descendants contributed by the first `n` children, in pre-order:
      each child immediately followed by its own descendants. */
  function DescendantsUpTo<T>(t: Tree<T>, n: nat): seq<T>
    requires n <= |t.children|
    decreases t, n
  {
    if n == 0 then []
    else
      var c := t.children[n - 1];
      DescendantsUpTo(t, n - 1) + [c.value] + DescendantsUpTo(c, |c.children|)
  }

  function Descendants<T>(t: Tree<T>): seq<T> {
    DescendantsUpTo(t, |t.children|)
  }

  /** Number of nodes of a tree. */
  function Size<T>(t: Tree<T>): nat {
    1 + SizeUpTo(t, |t.children|)
  }

  function SizeUpTo<T>(t: Tree<T>, n: nat): nat
    requires n <= |t.children|
    decreases t, n
  {
    if n == 0 then 0 else SizeUpTo(t, n - 1) + Size(t.children[n - 1])
  }

  /** `x` is the value of some node strictly below the root. */
  ghost predicate Below<T>(t: Tree<T>, x: T)
    decreases t
  {
    exists i :: 0 <= i < |t.children| && (t.children[i].value == x || Below(t.children[i], x))
  }

  /** Every node below the root is listed exactly once. */
  lemma {:induction false} DescendantsCount<T>(t: Tree<T>, n: nat)
    requires n <= |t.children|
    ensures |DescendantsUpTo(t, n)| == SizeUpTo(t, n)
    decreases t, n
  {
    if n > 0 {
      var c := t.children[n - 1];
      DescendantsCount(t, n - 1);
      DescendantsCount(c, |c.children|);
    }
  }

  /** The listed values are exactly the values below the root. */
  lemma {:induction false} DescendantsMembers<T>(t: Tree<T>, x: T)
    ensures x in Descendants(t) <==> Below(t, x)
    decreases t
  {
    forall n | 0 <= n <= |t.children|
      ensures x in DescendantsUpTo(t, n) <==>
              exists i :: 0 <= i < n && (t.children[i].value == x || Below(t.children[i], x))
    {
      DescendantsMembersUpTo(t, x, n);
    }
  }

  lemma {:induction false} DescendantsMembersUpTo<T>(t: Tree<T>, x: T, n: nat)
    requires n <= |t.children|
    ensures x in DescendantsUpTo(t, n) <==>
            exists i :: 0 <= i < n && (t.children[i].value == x || Below(t.children[i], x))
    decreases t, n
  {
    if n > 0 {
      var c := t.children[n - 1];
      DescendantsMembersUpTo(t, x, n - 1);
      DescendantsMembers(c, x);
      if x in DescendantsUpTo(t, n - 1) {
        var i :| 0 <= i < n - 1 && (t.children[i].value == x || Below(t.children[i], x));
        assert 0 <= i < n;
      }
    }
  }

  /** `path` picks a child index at each level, starting from the root. */
  predicate ValidPath<T>(t: Tree<T>, path: seq<nat>)
    decreases |path|
  {
    path == [] || (path[0] < |t.children| && ValidPath(t.children[path[0]], path[1..]))
  }

  /** The node reached by following `path` from the root. */
  function At<T>(t: Tree<T>, path: seq<nat>): Tree<T>
    requires ValidPath(t, path)
    decreases |path|
  {
    if path == [] then t else At(t.children[path[0]], path[1..])
  }

  /** Extending a path by one child index reaches that child of the node. */
  lemma {:induction false} AtExtend<T>(t: Tree<T>, path: seq<nat>, i: nat)
    requires ValidPath(t, path) && i < |At(t, path).children|
    ensures ValidPath(t, path + [i])
    ensures At(t, path + [i]) == At(t, path).children[i]
    decreases |path|
  {
    if path != [] {
      assert (path + [i])[1..] == path[1..] + [i];
      AtExtend(t.children[path[0]], path[1..], i);
    }
  }

  /** A valid path ends at a child index of the node its prefix reaches. */
  lemma {:induction false} ValidPathLast<T>(t: Tree<T>, path: seq<nat>, i: nat)
    requires ValidPath(t, path + [i])
    ensures ValidPath(t, path) && i < |At(t, path).children|
    decreases |path|
  {
    if path != [] {
      assert (path + [i])[1..] == path[1..] + [i];
      ValidPathLast(t.children[path[0]], path[1..], i);
    }
  }

  lemma {:induction false} ValidPathPrefix<T>(t: Tree<T>, path: seq<nat>, k: nat)
    requires ValidPath(t, path) && k <= |path|
    ensures ValidPath(t, path[..k])
    decreases |path|
  {
    if path != [] && k > 0 {
      assert path[..k][1..] == path[1..][..k - 1];
      ValidPathPrefix(t.children[path[0]], path[1..], k - 1);
    }
  }

  /** `full_path` / `full_name`: the parent's full path, " > ", then the node's own label;
      a root gives its label alone. */
  function FullPath<T>(t: Tree<T>, path: seq<nat>, nameOf: T -> string): string
    requires ValidPath(t, path)
    decreases |path|
  {
    if path == [] then nameOf(t.value)
    else
      ValidPathPrefix(t, path, |path| - 1);
      FullPath(t, path[..|path| - 1], nameOf) + " > " + nameOf(At(t, path).value)
  }

  /** The labels of the nodes on `path`, from the root down to the node. */
  function Lineage<T>(t: Tree<T>, path: seq<nat>, nameOf: T -> string): (names: seq<string>)
    requires ValidPath(t, path)
    ensures |names| == |path| + 1
    decreases |path|
  {
    if path == [] then [nameOf(t.value)]
    else [nameOf(t.value)] + Lineage(t.children[path[0]], path[1..], nameOf)
  }

  lemma {:induction false} LineageExtend<T>(t: Tree<T>, path: seq<nat>, i: nat, nameOf: T -> string)
    requires ValidPath(t, path) && i < |At(t, path).children|
    ensures ValidPath(t, path + [i])
    ensures Lineage(t, path + [i], nameOf) == Lineage(t, path, nameOf) + [nameOf(At(t, path).children[i].value)]
    decreases |path|
  {
    AtExtend(t, path, i);
    if path != [] {
      assert (path + [i])[1..] == path[1..] + [i];
      LineageExtend(t.children[path[0]], path[1..], i, nameOf);
    }
  }

  lemma JoinSnoc(parts: seq<string>, last: string, sep: string)
    requires parts != []
    ensures Join(parts + [last], sep) == Join(parts, sep) + sep + last
    decreases |parts|
  {
    if |parts| > 1 {
      assert (parts + [last])[1..] == parts[1..] + [last];
      JoinSnoc(parts[1..], last, sep);
    }
  }

  /** The full path is the labels from the root down to the node joined with " > ". */
  lemma {:induction false} FullPathIsJoinedLineage<T>(t: Tree<T>, path: seq<nat>, nameOf: T -> string)
    requires ValidPath(t, path)
    ensures FullPath(t, path, nameOf) == Join(Lineage(t, path, nameOf), " > ")
    decreases |path|
  {
    if path != [] {
      var p := path[..|path| - 1];
      var i := path[|path| - 1];
      ValidPathPrefix(t, path, |path| - 1);
      FullPathIsJoinedLineage(t, p, nameOf);
      assert path == p + [i];
      ValidPathLast(t, p, i);
      AtExtend(t, p, i);
      LineageExtend(t, p, i, nameOf);
      JoinSnoc(Lineage(t, p, nameOf), nameOf(At(t, path).value), " > ");
    }
  }
}
