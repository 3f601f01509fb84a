/**
 * The checkout page (`CheckoutPage`): a fail-fast validation chain over the
 * form and the cart, construction of the order request, and the submit
 * handler.  `handleSubmit` awaits the backend, so it is modelled in two halves:
 * `BeginSubmit` runs up to the request (validation, `loading := true`, the
 * request body), and `FinishSubmit` runs after the reply, which arrives as a
 * parameter.  Between the two the user may still change the cart.
 */
module OrderCheckout {
  import opened Common
  import opened Text
  import opened CartContext
  import CartPage

  /** `formData`. */
  datatype CheckoutForm = CheckoutForm(
    name: string,
    email: string,
    address: string,
    city: string,
    postalCode: string,
    paymentMethod: string)

  /** The form as it is created and as it is reset after a placed order. */
  const InitialForm: CheckoutForm := CheckoutForm("", "", "", "", "", "JazzCash")

  datatype FormField = Name | Email | Address | City | PostalCode | PaymentMethod

  /** `setFormData({...formData, [e.target.name]: e.target.value})`. */
  function WithField(f: CheckoutForm, field: FormField, value: string): CheckoutForm {
    match field
    case Name => f.(name := value)
    case Email => f.(email := value)
    case Address => f.(address := value)
    case City => f.(city := value)
    case PostalCode => f.(postalCode := value)
    case PaymentMethod => f.(paymentMethod := value)
  }

  // ---------------------------------------------------------------------------
  // validateForm

  datatype CheckoutError =
    | MissingName | MissingEmail | InvalidEmail | MissingAddress
    | MissingCity | MissingPostalCode | EmptyCart
  {
    function Message(): string {
      match this
      case MissingName => "Please enter your full name"
      case MissingEmail => "Please enter your email"
      case InvalidEmail => "Please enter a valid email address"
      case MissingAddress => "Please enter your shipping address"
      case MissingCity => "Please enter your city"
      case MissingPostalCode => "Please enter your postal code"
      case EmptyCart => "Your cart is empty. Add some items first!"
    }
  }

  /** `validateForm()`: the first failing check decides the error. */
  function ValidateForm(f: CheckoutForm, c: Cart): Option<CheckoutError> {
    if Trim(f.name) == "" then Some(MissingName)
    else if Trim(f.email) == "" then Some(MissingEmail)
    else if !Includes(f.email, "@") then Some(InvalidEmail)
    else if Trim(f.address) == "" then Some(MissingAddress)
    else if Trim(f.city) == "" then Some(MissingCity)
    else if Trim(f.postalCode) == "" then Some(MissingPostalCode)
    else if |c| == 0 then Some(EmptyCart)
    else None
  }

  /** The checks in the order they run. */
  const Rules: seq<CheckoutError> :=
    [MissingName, MissingEmail, InvalidEmail, MissingAddress, MissingCity, MissingPostalCode, EmptyCart]

  /** Which rules the form and cart violate, in the order of `Rules`, stated
      without `trim`: a field made only of whitespace, an email without '@', an
      empty cart. */
  function Violations(f: CheckoutForm, c: Cart): seq<bool> {
    [IsBlank(f.name), IsBlank(f.email), '@' !in f.email, IsBlank(f.address),
     IsBlank(f.city), IsBlank(f.postalCode), c == []]
  }

  /** The fail-fast chain over a vector of seven violations: the rule at the
      first violated position. */
  function FirstViolated(v: seq<bool>): Option<CheckoutError>
    requires |v| == 7
  {
    if v[0] then Some(MissingName)
    else if v[1] then Some(MissingEmail)
    else if v[2] then Some(InvalidEmail)
    else if v[3] then Some(MissingAddress)
    else if v[4] then Some(MissingCity)
    else if v[5] then Some(MissingPostalCode)
    else if v[6] then Some(EmptyCart)
    else None
  }

  /** Each `!x.trim()` test of `validateForm` is the blankness of that field,
      and the '@' test is membership. */
  lemma ValidateByBlankness(f: CheckoutForm, c: Cart)
    ensures ValidateForm(f, c) ==
      if IsBlank(f.name) then Some(MissingName)
      else if IsBlank(f.email) then Some(MissingEmail)
      else if '@' !in f.email then Some(InvalidEmail)
      else if IsBlank(f.address) then Some(MissingAddress)
      else if IsBlank(f.city) then Some(MissingCity)
      else if IsBlank(f.postalCode) then Some(MissingPostalCode)
      else if c == [] then Some(EmptyCart)
      else None
  {
    TrimEmptyIffBlank(f.name);
    TrimEmptyIffBlank(f.email);
    TrimEmptyIffBlank(f.address);
    TrimEmptyIffBlank(f.city);
    TrimEmptyIffBlank(f.postalCode);
    IncludesChar(f.email, '@');
    assert "@" == ['@'];
  }

  /** So `validateForm` is the chain over `Violations`. */
  lemma ValidateIsChain(f: CheckoutForm, c: Cart)
    ensures ValidateForm(f, c) == FirstViolated(Violations(f, c))
  {
    ValidateByBlankness(f, c);
    ChainOfSeven(IsBlank(f.name), IsBlank(f.email), '@' !in f.email, IsBlank(f.address),
                 IsBlank(f.city), IsBlank(f.postalCode), c == []);
  }

  lemma ChainOfSeven(a: bool, b: bool, c: bool, d: bool, e: bool, f: bool, g: bool)
    ensures FirstViolated([a, b, c, d, e, f, g]) ==
      if a then Some(MissingName) else if b then Some(MissingEmail) else if c then Some(InvalidEmail)
      else if d then Some(MissingAddress) else if e then Some(MissingCity)
      else if f then Some(MissingPostalCode) else if g then Some(EmptyCart) else None
  {
  }

  /** The position of each rule in `Rules`. */
  function Position(e: CheckoutError): nat {
    match e
    case MissingName => 0
    case MissingEmail => 1
    case InvalidEmail => 2
    case MissingAddress => 3
    case MissingCity => 4
    case MissingPostalCode => 5
    case EmptyCart => 6
  }

  /** The chain passes exactly when no entry is violated, and yields `e`
      exactly when `e`'s entry is violated and every earlier one holds. */
  lemma FirstViolatedIsFirst(v: seq<bool>, e: CheckoutError)
    requires |v| == 7
    ensures FirstViolated(v).None? <==> forall j :: 0 <= j < 7 ==> !v[j]
    ensures FirstViolated(v) == Some(e) <==> v[Position(e)] && forall j :: 0 <= j < Position(e) ==> !v[j]
  {
  }

  /** Validation passes exactly when no rule is violated, and fails with `e`
      exactly when rule `e` is violated and every earlier rule holds. */
  lemma ValidateIsFirstViolation(f: CheckoutForm, c: Cart, e: CheckoutError)
    ensures ValidateForm(f, c).None? <==> forall j :: 0 <= j < |Rules| ==> !Violations(f, c)[j]
    ensures ValidateForm(f, c) == Some(e) <==>
              Violations(f, c)[Position(e)] && forall j :: 0 <= j < Position(e) ==> !Violations(f, c)[j]
  {
    ValidateIsChain(f, c);
    FirstViolatedIsFirst(Violations(f, c), e);
  }

  /** A malformed email such as "abc" is refused for lacking '@' once the name is filled in. */
  lemma MalformedEmailRefused(f: CheckoutForm, c: Cart)
    requires !IsBlank(f.name) && f.email == "abc"
    ensures ValidateForm(f, c) == Some(InvalidEmail)
  {
    ValidateByBlankness(f, c);
    assert !IsWhitespace(f.email[0]);
  }

  // ---------------------------------------------------------------------------
  // The order request

  /** One entry of `orderItems`. */
  datatype OrderItem = OrderItem(
    productId: string,
    productName: string,
    quantity: int,
    price: int,
    image: Option<string>)

  /** `orderData`; the payment method is not part of it. */
  datatype OrderRequest = OrderRequest(
    customerName: string,
    customerEmail: string,
    shippingAddress: string,
    city: string,
    postalCode: string,
    orderItems: seq<OrderItem>,
    totalAmount: int)

  function ToOrderItem(l: CartLine): OrderItem {
    OrderItem(l.product.id, l.product.name, l.quantity, l.product.price, l.product.imageUrl)
  }

  /** `cartItems.map(item => ({ productId: item._id, ... }))`. */
  function OrderItems(c: Cart): seq<OrderItem> {
    seq(|c|, i requires 0 <= i < |c| => ToOrderItem(c[i]))
  }

  function BuildOrder(f: CheckoutForm, c: Cart): OrderRequest {
    var subtotal := Subtotal(c);
    var totalAmount := subtotal + CartPage.ShippingFee;
    OrderRequest(f.name, f.email, f.address, f.city, f.postalCode, OrderItems(c), totalAmount)
  }

  /** The request carries the form's contact fields as typed (untrimmed), one
      item per cart line in cart order with that line's id, name, quantity,
      price and image, and the cart page's total (subtotal plus the 500 fee). */
  lemma BuildOrderContents(f: CheckoutForm, c: Cart)
    ensures var o := BuildOrder(f, c);
      && o.customerName == f.name && o.customerEmail == f.email
      && o.shippingAddress == f.address && o.city == f.city && o.postalCode == f.postalCode
      && |o.orderItems| == |c|
      && (forall i :: 0 <= i < |c| ==>
            o.orderItems[i].productId == c[i].product.id
            && o.orderItems[i].productName == c[i].product.name
            && o.orderItems[i].quantity == c[i].quantity
            && o.orderItems[i].price == c[i].product.price
            && o.orderItems[i].image == c[i].product.imageUrl)
      && o.totalAmount == CartPage.Total(c)
      && o.totalAmount == Subtotal(c) + 500
  {
  }

  /** The payment method chosen on the form never reaches the request. */
  lemma PaymentMethodNotSent(f: CheckoutForm, c: Cart, m: string)
    ensures BuildOrder(f.(paymentMethod := m), c) == BuildOrder(f, c)
  {
  }

  // ---------------------------------------------------------------------------
  // Clearing the cart after a placed order

  /** The lines whose id is not in `ids`, in order. */
  function Without(c: Cart, ids: set<string>): Cart {
    if c == [] then []
    else if c[0].product.id in ids then Without(c[1..], ids)
    else [c[0]] + Without(c[1..], ids)
  }

  function IdsOf(c: Cart): set<string> {
    set i | 0 <= i < |c| :: c[i].product.id
  }

  lemma {:induction false} WithoutNothing(c: Cart)
    ensures Without(c, {}) == c
  {
    if c != [] {
      WithoutNothing(c[1..]);
      assert c == [c[0]] + c[1..];
    }
  }

  /** One more `removeFromCart(id)` extends the set of removed ids by `id`. */
  lemma {:induction false} RemovedExtendsWithout(c: Cart, ids: set<string>, id: string)
    ensures Removed(Without(c, ids), id) == Without(c, ids + {id})
  {
    if c != [] {
      RemovedExtendsWithout(c[1..], ids, id);
    }
  }

  /** Removing every id of a cart empties it. */
  lemma {:induction false} WithoutOwnIdsIsEmpty(c: Cart, ids: set<string>)
    requires IdsOf(c) <= ids
    ensures Without(c, ids) == []
  {
    if c != [] {
      assert c[0].product.id in IdsOf(c);
      assert IdsOf(c[1..]) <= IdsOf(c) by {
        forall x | x in IdsOf(c[1..]) ensures x in IdsOf(c) {
          var i :| 0 <= i < |c[1..]| && c[1..][i].product.id == x;
          assert c[i + 1].product.id == x;
        }
      }
      WithoutOwnIdsIsEmpty(c[1..], ids);
    }
  }

  lemma IdsOfPrefix(s: Cart, i: int)
    requires 0 <= i < |s|
    ensures IdsOf(s[..i + 1]) == IdsOf(s[..i]) + {s[i].product.id}
  {
    var a, b := s[..i + 1], s[..i];
    forall x | x in IdsOf(a) ensures x in IdsOf(b) + {s[i].product.id} {
      var j :| 0 <= j < |a| && a[j].product.id == x;
      if j < i {
        assert b[j] == a[j];
      }
    }
    forall x | x in IdsOf(b) + {s[i].product.id} ensures x in IdsOf(a) {
      if x == s[i].product.id {
        assert a[i].product.id == x;
      } else {
        var j :| 0 <= j < |b| && b[j].product.id == x;
        assert a[j] == b[j];
      }
    }
  }

  // ---------------------------------------------------------------------------
  // The page

  datatype Submission = Rejected(error: CheckoutError) | Sent(request: OrderRequest)

  const OrderPlaced: string :=
    "\U{1F389} Order placed successfully! Please send payment screenshot to WhatsApp."
  const OrderFailed: string := "Failed to place order. Please try again."

  /** The toast `handleSubmit` shows for a reply. */
  function ReplyToast(reply: Reply): Toast {
    match reply
    case Answered(success, message) =>
      if success then Success(OrderPlaced) else Error(MessageOr(message, OrderFailed))
    case Threw(_) => Error(OrderFailed)
  }

  class CheckoutPage {
    const store: CartStore
    var form: CheckoutForm
    var loading: bool
    /** The `cartItems` the pending `handleSubmit` closed over. */
    var submitted: Cart

    constructor (store: CartStore)
      ensures this.store == store
      ensures form == InitialForm && !loading && submitted == []
    {
      this.store := store;
      form := InitialForm;
      loading := false;
      submitted := [];
    }

    /** `handleChange`: one field of the form takes the typed value. */
    method HandleChange(field: FormField, value: string)
      modifies this
      ensures form == WithField(old(form), field, value)
      ensures loading == old(loading) && submitted == old(submitted)
    {
      form := WithField(form, field, value);
    }

    /** `handleSubmit` up to the request: a failed validation issues no request
        and changes nothing; otherwise `loading` is set and the request built
        from the current form and cart is issued. */
    method BeginSubmit() returns (r: Submission)
      modifies this
      ensures form == old(form)
      ensures ValidateForm(form, store.items).Some? ==>
                r == Rejected(ValidateForm(form, store.items).value)
                && loading == old(loading) && submitted == old(submitted)
      ensures ValidateForm(form, store.items).None? ==>
                r == Sent(BuildOrder(form, store.items))
                && loading && submitted == store.items
    {
      var v := ValidateForm(form, store.items);
      if v.Some? {
        return Rejected(v.value);
      }
      loading := true;
      submitted := store.items;
      r := Sent(BuildOrder(form, store.items));
    }

    /** `handleSubmit` after the reply.  A placed order removes, one by one, the
        lines that were submitted and resets the form; a refusal or an exception
        changes neither cart nor form.  `loading` ends false on every path. */
    method FinishSubmit(reply: Reply) returns (t: Toast)
      requires store.Valid()
      modifies this, store
      ensures store.Valid()
      ensures !loading && submitted == old(submitted)
      ensures t == ReplyToast(reply)
      ensures Succeeded(reply) ==>
                store.items == Without(old(store.items), IdsOf(submitted)) && form == InitialForm
      ensures !Succeeded(reply) ==> store.items == old(store.items) && form == old(form)
    {
      if Succeeded(reply) {
        t := Success(OrderPlaced);
        var lines := submitted;
        WithoutNothing(store.items);
        var i := 0;
        assert IdsOf(lines[..0]) == {};
        while i < |lines|
          invariant 0 <= i <= |lines|
          invariant store.Valid()
          invariant store.items == Without(old(store.items), IdsOf(lines[..i]))
          modifies store
        {
          RemovedExtendsWithout(old(store.items), IdsOf(lines[..i]), lines[i].product.id);
          IdsOfPrefix(lines, i);
          store.RemoveFromCart(lines[i].product.id);
          i := i + 1;
        }
        assert lines[..i] == lines;
        form := InitialForm;
      } else {
        t := ReplyToast(reply);
      }
      loading := false;
    }

    /** The whole handler when the cart does not change while the request is
        out: no request on a failed validation; on a placed order the cart ends
        empty and the form is reset; on a failure cart and form are as before. */
    method Submit(reply: Reply) returns (r: Submission, t: Toast)
      requires store.Valid()
      modifies this, store
      ensures store.Valid()
      ensures ValidateForm(old(form), old(store.items)).Some? ==>
                r == Rejected(ValidateForm(old(form), old(store.items)).value)
                && t == Error(r.error.Message())
                && store.items == old(store.items) && form == old(form) && loading == old(loading)
      ensures ValidateForm(old(form), old(store.items)).None? ==>
                r == Sent(BuildOrder(old(form), old(store.items)))
                && t == ReplyToast(reply) && !loading
      ensures ValidateForm(old(form), old(store.items)).None? && Succeeded(reply) ==>
                store.items == [] && form == InitialForm
      ensures ValidateForm(old(form), old(store.items)).None? && !Succeeded(reply) ==>
                store.items == old(store.items) && form == old(form)
    {
      r := BeginSubmit();
      if r.Rejected? {
        t := Error(r.error.Message());
        return;
      }
      assert submitted == store.items;
      t := FinishSubmit(reply);
      if Succeeded(reply) {
        WithoutOwnIdsIsEmpty(old(store.items), IdsOf(old(store.items)));
      }
    }
  }
}
