/** The header: the item-count badge and where the user icon leads. */
module Header {
  import opened Wrappers
  import opened CartContext
  import opened CartTotals
  import CartDrawer

  /** The signed-in user, as far as the header reads it. */
  datatype User = User(role: string)

  /** `handleUserClick`: no user goes to the login page, an `ADMIN` to the
      admin dashboard, every other role to the user dashboard. */
  function UserClickRoute(user: Option<User>): (path: string)
    ensures user.None? <==> path == "/login"
    ensures path == "/dashboard/admin" <==> user.Some? && user.value.role == "ADMIN"
    ensures path == "/dashboard/user" <==> user.Some? && user.value.role != "ADMIN"
  {
    if user.None? then "/login"
    else if user.value.role == "ADMIN" then "/dashboard/admin"
    else "/dashboard/user"
  }

  /** The badge: shown, with the item count, exactly when the count is positive. */
  function Badge(cart: seq<CartItem>): (b: Option<int>)
    ensures b.Some? <==> TotalItems(cart) > 0
    ensures b.Some? ==> b.value == TotalItems(cart) && b.value > 0
  {
    var n := TotalItems(cart);
    if n > 0 then Some(n) else None
  }

  /** While every quantity is at least 1, the badge shows exactly when the
      open drawer shows its Checkout footer, and it counts at least one item
      per line. */
  lemma BadgeAgreesWithDrawer(cart: seq<CartItem>)
    requires forall i | 0 <= i < |cart| :: cart[i].quantity >= 1
    ensures Badge(cart).Some? <==> CartDrawer.View(true, cart).footer.Some?
    ensures Badge(cart).Some? ==> Badge(cart).value >= |cart|
  {
    ItemsCoverLines(cart);
  }
}
