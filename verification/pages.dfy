/** The page tree of the dashboard and its pre-order walk (`walkPages`). */
module Pages {
  import opened Wrappers
  import opened Contents

  /** A leaf screen, or a named group of pages. */
  datatype Page =
    | Item(id: string, title: string, description: Option<string>, contents: seq<Content>)
    | Group(group: string, child: seq<Page>)

  type ItemPage = p: Page | p.Item? witness Item([], [], None, [])

  /** One result of the walk: the names of the enclosing groups and the item. */
  datatype Entry = Entry(path: seq<string>, page: ItemPage)

  /**
   * `walkPages(path, page)`: an item yields itself with the incoming path; a
   * group yields nothing of its own and walks its children in order with its
   * name appended to the path.
   */
  function Walk(path: seq<string>, page: Page): (entries: seq<Entry>)
    ensures forall e :: e in entries ==> |path| <= |e.path| && e.path[..|path|] == path
    decreases page
  {
    match page
    case Item(_, _, _, _) => [Entry(path, page)]
    case Group(name, child) =>
      var entries := WalkAll(path + [name], child);
      assert forall e :: e in entries ==> e.path[..|path|] == (e.path[..|path| + 1])[..|path|];
      entries
  }

  /** The `flatMap` over a group's children: their walks, concatenated in order. */
  function WalkAll(path: seq<string>, pages: seq<Page>): (entries: seq<Entry>)
    ensures forall e :: e in entries ==> |path| <= |e.path| && e.path[..|path|] == path
    decreases pages
  {
    if pages == [] then []
    else Walk(path, pages[0]) + WalkAll(path, pages[1..])
  }

  /** The number of `Item` nodes in a tree. */
  function CountItems(page: Page): nat
    decreases page
  {
    match page
    case Item(_, _, _, _) => 1
    case Group(_, child) => CountItemsAll(child)
  }

  function CountItemsAll(pages: seq<Page>): nat
    decreases pages
  {
    if pages == [] then 0 else CountItems(pages[0]) + CountItemsAll(pages[1..])
  }

  /**
   * The tree relation the walk is measured against: `item` sits in `page`
   * below groups named `names`, outermost first (`names` is empty when
   * `page` is the item itself).
   */
  predicate Reaches(page: Page, names: seq<string>, item: ItemPage)
    decreases page
  {
    match page
    case Item(_, _, _, _) => names == [] && item == page
    case Group(name, child) =>
      && |names| >= 1 && names[0] == name
      && exists i :: 0 <= i < |child| && Reaches(child[i], names[1..], item)
  }

  /** The walk yields exactly one entry per item node. */
  lemma {:induction false} WalkCount(path: seq<string>, page: Page)
    ensures |Walk(path, page)| == CountItems(page)
    decreases page
  {
    match page
    case Item(_, _, _, _) =>
    case Group(name, child) => WalkAllCount(path + [name], child);
  }

  lemma {:induction false} WalkAllCount(path: seq<string>, pages: seq<Page>)
    ensures |WalkAll(path, pages)| == CountItemsAll(pages)
    decreases pages
  {
    if pages != [] {
      WalkCount(path, pages[0]);
      WalkAllCount(path, pages[1..]);
    }
  }

  /** Walking a list of pages is a homomorphism: the entries of earlier pages
      come before the entries of later pages. */
  lemma {:induction false} WalkAllAppend(path: seq<string>, a: seq<Page>, b: seq<Page>)
    ensures WalkAll(path, a + b) == WalkAll(path, a) + WalkAll(path, b)
    decreases a
  {
    if a == [] {
      assert a + b == b;
    } else {
      assert (a + b)[0] == a[0];
      assert (a + b)[1..] == a[1..] + b;
      WalkAllAppend(path, a[1..], b);
    }
  }

  /**
   * Soundness of the walk: every entry extends the initial path by the names
   * of exactly the groups enclosing its item, outermost first.
   */
  lemma {:induction false} WalkSound(path: seq<string>, page: Page, k: nat)
    requires k < |Walk(path, page)|
    ensures var e := Walk(path, page)[k];
      |path| <= |e.path| && e.path[..|path|] == path && Reaches(page, e.path[|path|..], e.page)
    decreases page
  {
    match page
    case Item(_, _, _, _) =>
    case Group(name, child) =>
      var e := Walk(path, page)[k];
      WalkAllSound(path + [name], child, k);
      var names := e.path[|path|..];
      assert e.path[..|path| + 1] == path + [name];
      assert names[0] == name;
      assert names[1..] == e.path[|path| + 1..];
  }

  lemma {:induction false} WalkAllSound(path: seq<string>, pages: seq<Page>, k: nat)
    requires k < |WalkAll(path, pages)|
    ensures var e := WalkAll(path, pages)[k];
      && |path| <= |e.path| && e.path[..|path|] == path
      && exists i :: 0 <= i < |pages| && Reaches(pages[i], e.path[|path|..], e.page)
    decreases pages
  {
    var first := Walk(path, pages[0]);
    var e := WalkAll(path, pages)[k];
    if k < |first| {
      WalkSound(path, pages[0], k);
      assert e == first[k];
    } else {
      WalkAllSound(path, pages[1..], k - |first|);
      assert e == WalkAll(path, pages[1..])[k - |first|];
      var i :| 0 <= i < |pages[1..]| && Reaches(pages[1..][i], e.path[|path|..], e.page);
      assert Reaches(pages[i + 1], e.path[|path|..], e.page);
    }
  }

  /** Completeness of the walk: every item of the tree is yielded, with the
      initial path followed by the names of its enclosing groups. */
  lemma {:induction false} WalkComplete(path: seq<string>, page: Page, names: seq<string>, item: ItemPage)
    requires Reaches(page, names, item)
    ensures Entry(path + names, item) in Walk(path, page)
    decreases page
  {
    match page
    case Item(_, _, _, _) =>
      assert path + names == path;
    case Group(name, child) =>
      var i :| 0 <= i < |child| && Reaches(child[i], names[1..], item);
      WalkComplete(path + [name], child[i], names[1..], item);
      assert path + [name] + names[1..] == path + names;
      WalkAllContains(path + [name], child, i);
  }

  lemma {:induction false} WalkAllContains(path: seq<string>, pages: seq<Page>, i: nat)
    requires i < |pages|
    ensures forall e :: e in Walk(path, pages[i]) ==> e in WalkAll(path, pages)
    decreases pages
  {
    if i > 0 {
      WalkAllContains(path, pages[1..], i - 1);
      assert pages[1..][i - 1] == pages[i];
    }
  }

  /** A tree whose group names are non-empty and free of `'/'`. */
  predicate PlainNames(page: Page)
    decreases page
  {
    match page
    case Item(_, _, _, _) => true
    case Group(name, child) =>
      name != [] && '/' !in name && forall i :: 0 <= i < |child| ==> PlainNames(child[i])
  }

  lemma {:induction false} ReachesPlain(page: Page, names: seq<string>, item: ItemPage)
    requires PlainNames(page) && Reaches(page, names, item)
    ensures forall j :: 0 <= j < |names| ==> names[j] != [] && '/' !in names[j]
    decreases page
  {
    match page
    case Item(_, _, _, _) =>
    case Group(name, child) =>
      var i :| 0 <= i < |child| && Reaches(child[i], names[1..], item);
      ReachesPlain(child[i], names[1..], item);
      assert forall j :: 1 <= j < |names| ==> names[j] == names[1..][j - 1];
  }
}
