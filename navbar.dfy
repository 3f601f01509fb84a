/**
 * The navigation bar (`Navbar`): the cart badge derived from the cart, the
 * search form that leaves for the catalog page, and the active-link test.
 */
module Navbar {
  import opened Text
  import opened CartContext

  // ---------------------------------------------------------------------------
  // The cart badge

  /** The badge next to the cart icon: absent, or shown with a label. */
  datatype Badge = NoBadge | BadgeLabel(text: string)

  /** `totalItems > 0 && (totalItems > 9 ? '9+' : totalItems)`, where
      `totalItems` sums the quantities of the cart. */
  function CartBadge(c: Cart): Badge {
    var n := TotalItems(c);
    if n > 0 then BadgeLabel(if n > 9 then "9+" else DecimalString(n)) else NoBadge
  }

  /** The badge is shown exactly when the quantities sum to more than zero,
      which for a cart of positive quantities means a non-empty cart. */
  lemma {:induction false} BadgeShownIff(c: Cart)
    requires PositiveQuantities(c)
    ensures CartBadge(c).BadgeLabel? <==> TotalItems(c) > 0
    ensures CartBadge(c).BadgeLabel? <==> c != []
  {
    TotalItemsAtLeastLines(c);
  }

  /** Up to nine the label is the count itself, read back as a single digit;
      above nine it is "9+". */
  lemma BadgeLabels(c: Cart)
    ensures 1 <= TotalItems(c) <= 9 ==>
              CartBadge(c).BadgeLabel? && |CartBadge(c).text| == 1
              && DecimalValue(CartBadge(c).text) == TotalItems(c)
    ensures TotalItems(c) > 9 ==> CartBadge(c) == BadgeLabel("9+")
  {
    if 1 <= TotalItems(c) <= 9 {
      DecimalRoundTrip(TotalItems(c));
    }
  }

  /** Adding a product to a cart that already shows "9+" keeps showing "9+". */
  lemma BadgeSaturates(c: Cart, p: Common.Product)
    requires UniqueIds(c)
    requires CartBadge(c) == BadgeLabel("9+")
    ensures CartBadge(Added(c, p)) == BadgeLabel("9+")
  {
    AddedTotals(c, p);
    if TotalItems(c) <= 9 {
      if TotalItems(c) > 0 {
        BadgeLabels(c);
      }
    }
  }

  // ---------------------------------------------------------------------------
  // Search

  /** What submitting the search form does. */
  datatype SearchAction = StayHere | OpenCatalog(searchTerm: string)

  /** `handleSearch`: leave for the catalog with the term as typed, but only
      when the trimmed term is not empty. */
  function HandleSearch(term: string): (r: SearchAction)
    ensures r.OpenCatalog? ==> r.searchTerm == term
  {
    if Trim(term) != "" then OpenCatalog(term) else StayHere
  }

  /** The form navigates exactly when the term has a non-whitespace character. */
  lemma SearchNavigatesIff(term: string)
    ensures HandleSearch(term).OpenCatalog? <==> !IsBlank(term)
    ensures HandleSearch(term).OpenCatalog? <==> exists i :: 0 <= i < |term| && !IsWhitespace(term[i])
  {
    TrimEmptyIffBlank(term);
  }

  // ---------------------------------------------------------------------------
  // Links

  datatype NavLink = NavLink(name: string, href: string)

  const NavLinks: seq<NavLink> := [
    NavLink("Home", "/"),
    NavLink("Products", "/products"),
    NavLink("About", "/about"),
    NavLink("Contact", "/contact")
  ]

  /** `isActiveLink(href)`: an exact match of the current path, never a prefix. */
  predicate IsActiveLink(pathname: string, href: string) {
    pathname == href
  }

  /** The positions of the links highlighted at `pathname`. */
  function ActiveLinks(pathname: string): set<nat> {
    set k: nat | k < |NavLinks| && IsActiveLink(pathname, NavLinks[k].href)
  }

  /** At most one link is highlighted, because the hrefs differ; "Home" is
      highlighted only on "/" itself, not on the pages below it. */
  lemma AtMostOneActive(pathname: string)
    ensures |ActiveLinks(pathname)| <= 1
    ensures 0 in ActiveLinks(pathname) <==> pathname == "/"
  {
    var r := ActiveLinks(pathname);
    if pathname == "/" {
      assert r == {0};
    } else if pathname == "/products" {
      assert r == {1};
    } else if pathname == "/about" {
      assert r == {2};
    } else if pathname == "/contact" {
      assert r == {3};
    } else {
      assert r == {};
    }
  }
}
