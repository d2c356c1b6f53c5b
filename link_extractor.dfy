/** The file-tree link extractor: `searchAndAppend` pushes every truthy link
    of a `File` tree into a caller-supplied array, depth first and in
    pre-order, and the download handler folds it over the top-level files of
    the first magnet starting from an empty array. */
module LinkExtractor {
  import opened Types

  /** The link a node contributes itself. `if (file.l)` is JavaScript
      truthiness: an absent `l` and the empty string are both falsy. */
  function OwnLink(f: File): seq<string> {
    match f.l
    case Some(link) => if link != "" then [link] else []
    case None => []
  }

  /** The links of one tree, in the order `searchAndAppend` pushes them. */
  function Flatten(f: File): seq<string>
    decreases f
  {
    OwnLink(f) +
    match f.e
    case Present(cs) => if |cs| > 0 then FlattenAll(cs) else []
    case Absent => []
  }

  /** The links of a list of trees, one tree after the other
      (`files.reduce((acc, file) => searchAndAppend(acc, file), [])`). */
  function FlattenAll(fs: seq<File>): seq<string>
    decreases fs
  {
    if fs == [] then [] else Flatten(fs[0]) + FlattenAll(fs[1..])
  }

  // ---------------------------------------------------------------------
  // Reference definition: the pre-order list of nodes, and their links

  /** Every node of the tree, each node before its descendants, children in
      list order. No truthiness test: an empty `e` simply has no nodes. */
  function PreOrder(f: File): seq<File>
    decreases f
  {
    [f] +
    match f.e
    case Present(cs) => PreOrderAll(cs)
    case Absent => []
  }

  function PreOrderAll(fs: seq<File>): seq<File>
    decreases fs
  {
    if fs == [] then [] else PreOrder(fs[0]) + PreOrderAll(fs[1..])
  }

  /** The own links of a list of nodes, in list order. */
  function LinksOf(nodes: seq<File>): seq<string> {
    if nodes == [] then [] else OwnLink(nodes[0]) + LinksOf(nodes[1..])
  }

  lemma {:induction false} LinksOfAppend(a: seq<File>, b: seq<File>)
    ensures LinksOf(a + b) == LinksOf(a) + LinksOf(b)
  {
    if a == [] {
      assert a + b == b;
    } else {
      assert (a + b)[1..] == a[1..] + b;
      LinksOfAppend(a[1..], b);
    }
  }

  lemma {:induction false} FlattenAllAppend(a: seq<File>, b: seq<File>)
    ensures FlattenAll(a + b) == FlattenAll(a) + FlattenAll(b)
  {
    if a == [] {
      assert a + b == b;
    } else {
      assert (a + b)[1..] == a[1..] + b;
      FlattenAllAppend(a[1..], b);
    }
  }

  /** The extractor's output is exactly the own links of the tree's nodes
      taken in pre-order: a node's link comes before any link of its
      descendants, and subtrees follow the order of the children. */
  lemma {:induction false} FlattenIsPreOrderLinks(f: File)
    ensures Flatten(f) == LinksOf(PreOrder(f))
    decreases f
  {
    match f.e
    case Present(cs) =>
      FlattenAllIsPreOrderLinks(cs);
      LinksOfAppend([f], PreOrderAll(cs));
    case Absent =>
  }

  lemma {:induction false} FlattenAllIsPreOrderLinks(fs: seq<File>)
    ensures FlattenAll(fs) == LinksOf(PreOrderAll(fs))
    decreases fs
  {
    if fs != [] {
      FlattenIsPreOrderLinks(fs[0]);
      FlattenAllIsPreOrderLinks(fs[1..]);
      LinksOfAppend(PreOrder(fs[0]), PreOrderAll(fs[1..]));
    }
  }

  /** A string is among the links of a node list exactly when some node in
      the list carries it as a truthy link. */
  lemma {:induction false} LinksOfMembership(nodes: seq<File>, x: string)
    ensures x in LinksOf(nodes) <==> exists i :: 0 <= i < |nodes| && OwnLink(nodes[i]) == [x]
  {
    if nodes != [] {
      LinksOfMembership(nodes[1..], x);
      if x in LinksOf(nodes[1..]) {
        var i :| 0 <= i < |nodes[1..]| && OwnLink(nodes[1..][i]) == [x];
        assert OwnLink(nodes[i + 1]) == [x];
      }
      if exists i :: 0 <= i < |nodes| && OwnLink(nodes[i]) == [x] {
        var i :| 0 <= i < |nodes| && OwnLink(nodes[i]) == [x];
        if i > 0 {
          assert OwnLink(nodes[1..][i - 1]) == [x];
        }
      }
    }
  }

  /** Every link found is the truthy link of some node of the tree, and every
      node with a truthy link contributes it. */
  lemma LinkFoundIffSomeNodeCarriesIt(f: File, x: string)
    ensures x in Flatten(f) <==> exists i :: 0 <= i < |PreOrder(f)| && OwnLink(PreOrder(f)[i]) == [x]
  {
    FlattenIsPreOrderLinks(f);
    LinksOfMembership(PreOrder(f), x);
  }

  /** The extractor reads only the direct link of the root before descending:
      the root's own link, if truthy, is the first one returned. */
  lemma RootLinkFirst(f: File, link: string)
    requires f.l == Some(link) && link != ""
    ensures |Flatten(f)| >= 1 && Flatten(f)[0] == link
  {
  }

  /** An absent `e` and an empty `e` behave the same: nothing below the node. */
  lemma AbsentAndEmptyChildrenAgree(n: string, l: Option<string>)
    ensures Flatten(File(n, Absent, l)) == Flatten(File(n, Present([]), l))
    ensures Flatten(File(n, Absent, l)) == OwnLink(File(n, Absent, l))
  {
  }

  /** An absent `l` and an empty-string `l` behave the same: the node adds no
      link of its own, and its children are still visited. */
  lemma FalsyLinkStillVisitsChildren(n: string, cs: seq<File>)
    ensures Flatten(File(n, Absent, None)) == Flatten(File(n, Absent, Some(""))) == []
    ensures Flatten(File(n, Present(cs), None)) == Flatten(File(n, Present(cs), Some(""))) == FlattenAll(cs)
  {
  }

  /** The tree of two links used to illustrate the download flow:
      `[{n:"a", l:"link1"}, {n:"folder", e:[{n:"b", l:"link2"}]}]`. */
  lemma TwoLinkExample()
    ensures FlattenAll([File("a", Absent, Some("link1")),
                        File("folder", Present([File("b", Absent, Some("link2"))]), None)])
            == ["link1", "link2"]
  {
  }

  // ---------------------------------------------------------------------
  // The imperative extractor

  /** A JavaScript `string[]` that is shared and grown in place by `push`. */
  class LinkArray {
    var items: seq<string>

    constructor ()
      ensures items == []
    {
      items := [];
    }

    method Push(link: string)
      modifies this
      ensures items == old(items) + [link]
    {
      items := items + [link];
    }
  }

  /** `searchAndAppend(links, file)`: appends the tree's links to `links` in
      place and returns that same array. What was in `links` before is an
      unchanged prefix of what is there afterwards. */
  method SearchAndAppend(links: LinkArray, file: File) returns (r: LinkArray)
    modifies links
    ensures r == links
    ensures links.items == old(links.items) + Flatten(file)
    decreases file
  {
    match file.l {
      case Some(link) =>
        if link != "" {
          links.Push(link);
        }
      case None =>
    }
    match file.e {
      case Present(cs) =>
        if |cs| > 0 {
          for i := 0 to |cs|
            invariant links.items == old(links.items) + OwnLink(file) + FlattenAll(cs[..i])
          {
            assert cs[..i + 1] == cs[..i] + [cs[i]];
            FlattenAllAppend(cs[..i], [cs[i]]);
            assert FlattenAll([cs[i]]) == Flatten(cs[i]);
            var _ := SearchAndAppend(links, cs[i]);
          }
          assert cs[..|cs|] == cs;
        }
      case Absent =>
    }
    r := links;
  }

  /** The fold over the top-level files of a magnet, starting from `[]`:
      the links of every tree, tree after tree, each in pre-order. */
  method CollectLinks(files: seq<File>) returns (links: seq<string>)
    ensures links == FlattenAll(files)
  {
    var acc := new LinkArray();
    for i := 0 to |files|
      invariant fresh(acc)
      invariant acc.items == FlattenAll(files[..i])
    {
      assert files[..i + 1] == files[..i] + [files[i]];
      FlattenAllAppend(files[..i], [files[i]]);
      assert FlattenAll([files[i]]) == Flatten(files[i]);
      acc := SearchAndAppend(acc, files[i]);
    }
    assert files[..|files|] == files;
    links := acc.items;
  }
}
