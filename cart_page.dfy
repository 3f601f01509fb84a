/**
 * The cart page (`CartPage`): totals derived from the store on every render,
 * the quantity gate in front of the store's `updateQuantity`, the removal and
 * checkout handlers, and the small display predicates.  The page is the only
 * place the 1..10 quantity bound is enforced; the store underneath has none.
 */
module CartPage {
  import opened Common
  import opened Text
  import opened CartContext

  const ShippingFee: int := 500

  /** `total = subtotal + shippingFee`. */
  function Total(c: Cart): int {
    Subtotal(c) + ShippingFee
  }

  /** The worked example: 1500 x 2 and 500 x 1 give a subtotal of 3500 and a total of 4000. */
  lemma TotalExample(a: Product, b: Product)
    requires a.price == 1500 && b.price == 500
    ensures Subtotal([CartLine(a, 2), CartLine(b, 1)]) == 3500
    ensures Total([CartLine(a, 2), CartLine(b, 1)]) == 4000
  {
    SubtotalExample(a, b);
  }

  // ---------------------------------------------------------------------------
  // handleUpdateQuantity

  /** The outcome of the two guards at the top of `handleUpdateQuantity`. */
  datatype QuantityCheck = BelowOne | AboveTen | InRange

  function CheckQuantity(q: int): QuantityCheck {
    if q < 1 then BelowOne else if q > 10 then AboveTen else InRange
  }

  /** The toast `handleUpdateQuantity` shows for a requested quantity. */
  function UpdateToast(itemName: string, q: int): Toast {
    match CheckQuantity(q)
    case BelowOne => Error("Quantity cannot be less than 1")
    case AboveTen => Error("Maximum quantity allowed is 10")
    case InRange => Success("Updated " + itemName + " quantity to " + DecimalString(q) + " \U{1F6D2}")
  }

  /** `handleUpdateQuantity(itemId, newQuantity, itemName)`: a request outside
      1..10 leaves the cart unchanged and yields the matching error; a request
      inside calls the store's `updateQuantity` with exactly that value. */
  method HandleUpdateQuantity(store: CartStore, itemId: string, newQuantity: int, itemName: string)
    returns (t: Toast)
    requires store.Valid()
    modifies store
    ensures store.Valid()
    ensures newQuantity < 1 ==> store.items == old(store.items)
                                && t == Error("Quantity cannot be less than 1")
    ensures newQuantity > 10 ==> store.items == old(store.items)
                                 && t == Error("Maximum quantity allowed is 10")
    ensures 1 <= newQuantity <= 10 ==>
              store.items == WithQuantity(old(store.items), itemId, newQuantity)
              && t.Success?
    ensures t == UpdateToast(itemName, newQuantity)
  {
    if newQuantity < 1 {
      t := Error("Quantity cannot be less than 1");
      return;
    }
    if newQuantity > 10 {
      t := Error("Maximum quantity allowed is 10");
      return;
    }
    store.UpdateQuantity(itemId, newQuantity);
    t := Success("Updated " + itemName + " quantity to " + DecimalString(newQuantity) + " \U{1F6D2}");
  }

  /** A quantity the gate accepts is stored exactly, without the store's
      coercion to 1, so the updated line ends inside 1..10 and nothing else moves. */
  lemma AcceptedQuantityIsStored(c: Cart, k: int, q: int)
    requires UniqueIds(c)
    requires 0 <= k < |c|
    requires CheckQuantity(q) == InRange
    ensures WithQuantity(c, c[k].product.id, q) == c[k := CartLine(c[k].product, q)]
    ensures 1 <= WithQuantity(c, c[k].product.id, q)[k].quantity <= 10
  {
    UpdateSetsLine(c, k, q);
  }

  /** The two controls beside a line: − requests quantity − 1, + requests quantity + 1. */
  datatype Control = Decrement | Increment

  function Requested(l: CartLine, ctl: Control): int {
    match ctl
    case Decrement => l.quantity - 1
    case Increment => l.quantity + 1
  }

  /** For a line inside 1..10, − is refused exactly at 1 and + exactly at 10, and
      whatever a control is allowed to request stays inside 1..10. */
  lemma ControlsKeepRange(l: CartLine, ctl: Control)
    requires 1 <= l.quantity <= 10
    ensures CheckQuantity(Requested(l, Decrement)) == InRange <==> l.quantity > 1
    ensures CheckQuantity(Requested(l, Decrement)) == BelowOne <==> l.quantity == 1
    ensures CheckQuantity(Requested(l, Increment)) == InRange <==> l.quantity < 10
    ensures CheckQuantity(Requested(l, Increment)) == AboveTen <==> l.quantity == 10
    ensures CheckQuantity(Requested(l, ctl)) == InRange ==> 1 <= Requested(l, ctl) <= 10
  {
  }

  /** Because the store's `addToCart` has no cap, a line can pass 10; once it
      reaches 12 neither control is accepted, so the page cannot change it. */
  lemma ControlsRefuseAboveEleven(l: CartLine, ctl: Control)
    requires l.quantity >= 12
    ensures CheckQuantity(Requested(l, ctl)) == AboveTen
  {
  }

  /** What `${item.title}` renders: cart lines are products spread with a
      quantity, and products carry `name`, not `title`. */
  const MissingTitle: string := "undefined"

  /** The toast of a − or + control as the page wires it, passing `item.title`. */
  function ControlToastAsWritten(l: CartLine, ctl: Control): Toast {
    UpdateToast(MissingTitle, Requested(l, ctl))
  }

  /** As wired, the toast of a control does not depend on the product: two
      lines that differ only in their product's name give the same toast, and
      an accepted press reads "Updated undefined quantity to ...". */
  lemma ControlToastIgnoresName(l: CartLine, other: string, ctl: Control)
    ensures ControlToastAsWritten(l, ctl)
         == ControlToastAsWritten(CartLine(l.product.(name := other), l.quantity), ctl)
    ensures CheckQuantity(Requested(l, ctl)) == InRange ==>
              OccursAt(ControlToastAsWritten(l, ctl).text, MissingTitle, 8)
  {
    if CheckQuantity(Requested(l, ctl)) == InRange {
      ControlToastNamesProduct(CartLine(l.product.(name := MissingTitle), l.quantity), ctl);
    }
  }

  /** The toast of a − or + control passing the line's product name. */
  function ControlToast(l: CartLine, ctl: Control): Toast {
    UpdateToast(l.product.name, Requested(l, ctl))
  }

  /** An accepted control press confirms with a toast naming the product and
      the new quantity. */
  lemma ControlToastNamesProduct(l: CartLine, ctl: Control)
    requires CheckQuantity(Requested(l, ctl)) == InRange
    ensures ControlToast(l, ctl).Success?
    ensures OccursAt(ControlToast(l, ctl).text, l.product.name, 8)
    ensures Includes(ControlToast(l, ctl).text, l.product.name)
  {
    var name := l.product.name;
    var d := DecimalString(Requested(l, ctl));
    var t := ControlToast(l, ctl).text;
    assert t == "Updated " + name + " quantity to " + d + " \U{1F6D2}";
    assert t == "Updated " + name + (" quantity to " + d + " \U{1F6D2}");
    OccursInMiddle("Updated ", name, " quantity to " + d + " \U{1F6D2}");
  }

  /** Pressing − or + beside line `l`, wired as the page wires it: the request
      goes through the 1..10 gate for that line's id, and the toast carries
      the missing `title` in place of the product's name. */
  method PressControl(store: CartStore, l: CartLine, ctl: Control) returns (t: Toast)
    requires store.Valid()
    modifies store
    ensures store.Valid()
    ensures t == ControlToastAsWritten(l, ctl)
    ensures CheckQuantity(Requested(l, ctl)) == InRange ==>
              store.items == WithQuantity(old(store.items), l.product.id, Requested(l, ctl))
    ensures CheckQuantity(Requested(l, ctl)) != InRange ==> store.items == old(store.items)
  {
    t := HandleUpdateQuantity(store, l.product.id, Requested(l, ctl), MissingTitle);
  }

  // ---------------------------------------------------------------------------
  // handleRemoveFromCart, handleCheckout

  method HandleRemoveFromCart(store: CartStore, itemId: string, itemName: string)
    returns (t: Toast)
    requires store.Valid()
    modifies store
    ensures store.Valid()
    ensures store.items == Removed(old(store.items), itemId)
    ensures t == Success(itemName + " removed from cart! \U{1F5D1}\U{FE0F}")
  {
    store.RemoveFromCart(itemId);
    t := Success(itemName + " removed from cart! \U{1F5D1}\U{FE0F}");
  }

  /** What a handler does to the page: stay, or navigate to a route. */
  datatype PageAction = Stay(toast: Toast) | NavigateTo(path: string, toast: Toast)

  function CheckoutAction(c: Cart): PageAction {
    if |c| == 0 then Stay(Error("Your cart is empty. Add some items first!"))
    else NavigateTo("/user/order", Success("Redirecting to checkout... \U{1F6D2}"))
  }

  /** Checkout from an empty cart is refused with an error and no navigation;
      any other cart moves on to the order page. */
  lemma CheckoutRefusedIffEmpty(c: Cart)
    ensures CheckoutAction(c).Stay? <==> c == []
    ensures CheckoutAction(c).Stay? ==> CheckoutAction(c).toast.Error?
    ensures CheckoutAction(c).NavigateTo? ==> CheckoutAction(c).path == "/user/order"
  {
  }

  // ---------------------------------------------------------------------------
  // Display

  /** The header says "item" for exactly one item and "items" otherwise. */
  function ItemsNoun(totalItems: int): string {
    if totalItems == 1 then "item" else "items"
  }

  /** In a cart whose quantities are all at least 1, the header reads "item"
      exactly when the cart holds a single line of quantity 1. */
  lemma {:induction false} HeaderSingularIffOneUnit(c: Cart)
    requires PositiveQuantities(c)
    ensures ItemsNoun(TotalItems(c)) == "item" <==> |c| == 1 && c[0].quantity == 1
  {
    if |c| >= 2 {
      TotalItemsAtLeastLines(c);
    } else if |c| == 1 {
      assert c[1..] == [];
    }
  }

  /** `item.originalPrice && item.originalPrice > item.price`: an absent or zero
      original price is falsy. */
  predicate OnSale(l: CartLine) {
    l.product.originalPrice.Some? && l.product.originalPrice.value != 0
    && l.product.originalPrice.value > l.product.price
  }

  /** `cartItems.some(item => ...)`, scanning from the front. */
  predicate ShowsSavings(c: Cart) {
    c != [] && (OnSale(c[0]) || ShowsSavings(c[1..]))
  }

  /** The savings banner is shown exactly when some line is on sale. */
  lemma {:induction false} ShowsSavingsIffSomeOnSale(c: Cart)
    ensures ShowsSavings(c) <==> exists i :: 0 <= i < |c| && OnSale(c[i])
  {
    if c != [] {
      ShowsSavingsIffSomeOnSale(c[1..]);
      if exists i :: 0 <= i < |c| && OnSale(c[i]) {
        var i :| 0 <= i < |c| && OnSale(c[i]);
        if i > 0 {
          assert OnSale(c[1..][i - 1]);
        }
      }
      if ShowsSavings(c[1..]) {
        var i :| 0 <= i < |c[1..]| && OnSale(c[1..][i]);
        assert OnSale(c[i + 1]);
      }
    }
  }
}
