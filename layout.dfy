/** The page frame: which navigation a visitor sees, whether the current path is one of
    its links, and which header icons are shown. */
module Layout {
  import opened Seqs
  import opened Auth

  datatype NavItem = NavItem(name: string, href: string)

  /** The storefront links, which every buyer and every visitor sees. */
  const StoreLinks: seq<NavItem> := [
    NavItem("Home", "/"), NavItem("Shop", "/shop"),
    NavItem("Gift Suggester", "/gift-suggester"), NavItem("Hamper Builder", "/hamper-builder")]

  const OrdersLink: NavItem := NavItem("Orders", "/orders")

  /** `getBuyerNavigation`: the storefront links, then Orders for a signed-in user. */
  function BuyerNavigation(signedIn: bool): (r: seq<NavItem>)
    ensures |r| == if signedIn then 5 else 4
    ensures r[..4] == [NavItem("Home", "/"), NavItem("Shop", "/shop"),
                       NavItem("Gift Suggester", "/gift-suggester"), NavItem("Hamper Builder", "/hamper-builder")]
    ensures signedIn ==> r[4] == NavItem("Orders", "/orders")
  {
    StoreLinks + (if signedIn then [OrdersLink] else [])
  }

  /** `getSellerNavigation`. */
  function SellerNavigation(): (r: seq<NavItem>)
    ensures r == [NavItem("Dashboard", "/seller/dashboard"), NavItem("Orders", "/orders")]
  {
    [NavItem("Dashboard", "/seller/dashboard"), OrdersLink]
  }

  /** `getAdminNavigation`. */
  function AdminNavigation(): (r: seq<NavItem>)
    ensures r == [NavItem("Dashboard", "/admin/dashboard"), NavItem("Orders", "/orders")]
  {
    [NavItem("Dashboard", "/admin/dashboard"), OrdersLink]
  }

  /** `getNavigation`. */
  function Navigation(user: Option<User>): (r: seq<NavItem>)
    ensures user.None? ==> r == BuyerNavigation(false)
    ensures user.Some? && user.value.role == Seller ==>
      r == [NavItem("Dashboard", "/seller/dashboard"), NavItem("Orders", "/orders")]
    ensures user.Some? && user.value.role == Admin ==>
      r == [NavItem("Dashboard", "/admin/dashboard"), NavItem("Orders", "/orders")]
    ensures user.Some? && user.value.role == Buyer ==> r == BuyerNavigation(true)
  {
    if user.None? then BuyerNavigation(false)
    else
      match user.value.role
      case Seller => SellerNavigation()
      case Admin => AdminNavigation()
      case Buyer => BuyerNavigation(true)
  }

  /** The Orders link is offered exactly to signed-in users, whatever their role. */
  lemma OrdersLinkIffSignedIn(user: Option<User>)
    ensures (exists i :: 0 <= i < |Navigation(user)| && Navigation(user)[i].href == "/orders") <==> user.Some?
  {
    var nav := Navigation(user);
    if user.Some? {
      assert nav[|nav| - 1].href == "/orders";
    } else {
      assert forall i :: 0 <= i < |nav| ==> nav[i] == StoreLinks[i];
    }
  }

  /** Every buyer-facing navigation starts with the storefront links; the staff ones contain none of them. */
  lemma StorefrontOnlyForBuyers(user: Option<User>)
    ensures user.None? || user.value.role == Buyer ==> Navigation(user)[..4] == StoreLinks
    ensures user.Some? && user.value.role != Buyer ==>
      forall i :: 0 <= i < |Navigation(user)| ==> Navigation(user)[i] !in StoreLinks
  {
  }

  /** `isAnyNavActive`: the path is the target of one of the links. */
  function IsAnyNavActive(nav: seq<NavItem>, pathname: string): (r: bool)
    ensures r <==> exists i :: 0 <= i < |nav| && nav[i].href == pathname
  {
    if nav == [] then false
    else
      assert forall i :: 0 < i < |nav| ==> nav[i] == nav[1..][i - 1];
      nav[0].href == pathname || IsAnyNavActive(nav[1..], pathname)
  }

  /** The cart icon: shown to visitors and buyers. */
  function ShowCart(user: Option<User>): (r: bool)
    ensures r <==> user.None? || user.value.role == Buyer
  {
    !user.Some? || user.value.role == Buyer
  }

  /** The notification centre: shown to signed-in users. */
  function ShowNotifications(user: Option<User>): (r: bool)
    ensures r <==> user.Some?
  {
    user.Some?
  }

  /** Every signed-in user sees notifications; only buyers among them also see the cart. */
  lemma HeaderIcons(user: Option<User>)
    ensures ShowCart(user) && ShowNotifications(user) <==> user.Some? && user.value.role == Buyer
    ensures !ShowCart(user) ==> ShowNotifications(user)
  {
  }
}
