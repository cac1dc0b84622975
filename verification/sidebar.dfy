/** The dashboard's side navigation: a fixed table of entries and the rule
    that decides which entry is highlighted for the current path name. */
module Sidebar {
  import opened Text

  /** One navigation entry; its name is the render key, its `href` the link
      target. The icon is presentational and not modelled. */
  datatype NavItem = NavItem(name: string, href: string)

  /** Href of the dashboard home entry. */
  const RootHref: string := "/"

  /** The navigation table, in display order. */
  const Navigation: seq<NavItem> := [
    NavItem("Dashboard", "/"),
    NavItem("Requested Products", "/requested-product"),
    NavItem("Approved Products", "/approved-product"),
    NavItem("Main Category", "/category"),
    NavItem("Sub Category", "/sub-category"),
    NavItem("SR Category List", "/sr-category"),
    NavItem("SR Sub Category List", "/sr-sub-category")
  ]

  /** An entry is highlighted when the path name equals its `href`, or when
      the entry is not the root and the path name starts with its `href`. */
  predicate IsActive(pathname: string, item: NavItem)
  {
    pathname == item.href || (item.href != RootHref && StartsWith(pathname, item.href))
  }

  /** The highlight flag of every entry, in table order: the root entry is
      highlighted exactly on `/`, and never are two entries highlighted at once. */
  function Highlights(pathname: string): (r: seq<bool>)
    ensures |r| == |Navigation|
    ensures forall i :: 0 <= i < |r| ==> (r[i] <==> IsActive(pathname, Navigation[i]))
    ensures r[0] <==> pathname == RootHref
    ensures forall i, j :: 0 <= i < j < |r| ==> !(r[i] && r[j])
  {
    NoTwoActive(pathname);
    seq(|Navigation|, i requires 0 <= i < |Navigation| => IsActive(pathname, Navigation[i]))
  }

  /** The root entry is active exactly when the path name is `/`. */
  lemma RootActiveIff(pathname: string)
    ensures Navigation[0].href == RootHref
    ensures IsActive(pathname, Navigation[0]) <==> pathname == "/"
  {
  }

  /** A non-root entry is active exactly when the path name starts with its
      `href`; in particular on the `href` itself. */
  lemma NonRootActiveIff(pathname: string, i: int)
    requires 0 < i < |Navigation|
    ensures IsActive(Navigation[i].href, Navigation[i])
    ensures IsActive(pathname, Navigation[i]) <==> StartsWith(pathname, Navigation[i].href)
  {
    StartsWithSelf(Navigation[i].href);
    if pathname == Navigation[i].href {
      StartsWithSelf(pathname);
    }
  }

  /** Prefix matching is raw: a nested page and a longer sibling name both
      activate the `/category` entry. */
  lemma CategoryMatchesByRawPrefix()
    ensures Navigation[3].href == "/category"
    ensures IsActive("/category/new", Navigation[3])
    ensures IsActive("/category-extra", Navigation[3])
  {
    assert "/category/new"[..9] == "/category";
    assert "/category-extra"[..9] == "/category";
  }

  /** No non-root `href` of the table is a prefix of another entry's `href`. */
  lemma HrefsPrefixFree(i: int, j: int)
    requires 0 < i < |Navigation| && 0 < j < |Navigation| && i != j
    ensures !StartsWith(Navigation[j].href, Navigation[i].href)
  {
    var a, b := Navigation[i].href, Navigation[j].href;
    // two distinct non-root hrefs always differ at index 1 or at index 4
    if |a| <= |b| {
      assert a[1] != b[1] || a[4] != b[4];
    }
  }

  /** The entry names are pairwise distinct, so they are usable as render keys. */
  lemma NamesDistinct(i: int, j: int)
    requires 0 <= i < |Navigation| && 0 <= j < |Navigation| && i != j
    ensures Navigation[i].name != Navigation[j].name
  {
    // the seven names all have different lengths
    assert |Navigation[i].name| != |Navigation[j].name|;
  }

  /** For every path name at most one entry of the table is active. */
  lemma {:induction false} AtMostOneActive(pathname: string, i: int, j: int)
    requires 0 <= i < |Navigation| && 0 <= j < |Navigation|
    requires IsActive(pathname, Navigation[i]) && IsActive(pathname, Navigation[j])
    ensures i == j
  {
    // the root is active only on "/", which is shorter than every other href,
    // so only two non-root entries need an argument
    if i != j && i != 0 && j != 0 {
      var a, b := Navigation[i].href, Navigation[j].href;
      NonRootActiveIff(pathname, i);
      NonRootActiveIff(pathname, j);
      if |a| <= |b| {
        PrefixesNest(pathname, a, b);
        HrefsPrefixFree(i, j);
      } else {
        PrefixesNest(pathname, b, a);
        HrefsPrefixFree(j, i);
      }
    }
  }

  /** For every path name, no two distinct entries of the table are active together. */
  lemma NoTwoActive(pathname: string)
    ensures forall i, j :: 0 <= i < j < |Navigation| ==> !(IsActive(pathname, Navigation[i]) && IsActive(pathname, Navigation[j]))
  {
    forall i, j | 0 <= i < j < |Navigation| && IsActive(pathname, Navigation[i]) && IsActive(pathname, Navigation[j])
      ensures false
    {
      AtMostOneActive(pathname, i, j);
    }
  }
}
