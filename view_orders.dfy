/**
 * The admin order list (`ViewOrders`): the list as the last successful fetch
 * left it, the status and payment updates, deletion behind a confirmation,
 * and the display helpers (status style, order code, line totals).  Every
 * handler that changes an order asks the backend and then fetches the whole
 * list again; the replies arrive as parameters, in the order they are awaited.
 */
module ViewOrders {
  import opened Common
  import opened Text
  import opened CartContext
  import OrderCheckout

  /** An order as the list endpoint returns it.  The statuses are the strings
      the backend stores, so any value can appear. */
  datatype StoredOrder = StoredOrder(
    id: string,
    customerName: string,
    customerEmail: string,
    orderStatus: string,
    paymentStatus: string,
    paymentMethod: string,
    totalAmount: int,
    orderItems: seq<OrderCheckout.OrderItem>)

  /** The options of the two selects, in their order. */
  const OrderStatuses: seq<string> := ["pending", "confirmed", "shipped", "delivered", "cancelled"]
  const PaymentStatuses: seq<string> := ["pending", "paid", "failed"]

  // ---------------------------------------------------------------------------
  // getStatusInfo

  datatype Icon = Clock | CheckCircle | Truck | XCircle

  datatype StatusStyle = StatusStyle(color: string, bg: string, icon: Icon)

  const DefaultStyle: StatusStyle := StatusStyle("text-gray-600", "bg-gray-100", Clock)

  /** `getStatusInfo(status)`: one style per known status, the gray clock for
      anything else.  The mapping is total: every value outside the five
      statuses gets the default, and none of the five gets it. */
  function StatusInfo(status: string): (r: StatusStyle)
    ensures status !in OrderStatuses ==> r == DefaultStyle
    ensures status in OrderStatuses ==> r != DefaultStyle
  {
    if status == "pending" then StatusStyle("text-yellow-600", "bg-yellow-100", Clock)
    else if status == "confirmed" then StatusStyle("text-blue-600", "bg-blue-100", CheckCircle)
    else if status == "shipped" then StatusStyle("text-purple-600", "bg-purple-100", Truck)
    else if status == "delivered" then StatusStyle("text-green-600", "bg-green-100", CheckCircle)
    else if status == "cancelled" then StatusStyle("text-red-600", "bg-red-100", XCircle)
    else DefaultStyle
  }

  /** The five statuses get five different colours. */
  lemma StatusColorsDistinct()
    ensures forall i, j :: 0 <= i < j < |OrderStatuses| ==>
              StatusInfo(OrderStatuses[i]).color != StatusInfo(OrderStatuses[j]).color
  {
  }

  /** `order.paymentStatus === 'paid' ? 'text-green-600' : 'text-yellow-600'`. */
  function PaymentColor(paymentStatus: string): string {
    if paymentStatus == "paid" then "text-green-600" else "text-yellow-600"
  }

  /** Of the three payment options only "paid" is shown green; "failed" is
      shown in the same yellow as "pending". */
  lemma PaymentColorOfOptions()
    ensures forall k :: 0 <= k < |PaymentStatuses| ==>
              (PaymentColor(PaymentStatuses[k]) == "text-green-600" <==> PaymentStatuses[k] == "paid")
    ensures PaymentColor(PaymentStatuses[2]) == PaymentColor(PaymentStatuses[0])
  {
  }

  // ---------------------------------------------------------------------------
  // Display helpers

  /** `order._id.slice(-6).toUpperCase()`. */
  function OrderCode(id: string): (r: string)
    ensures |r| == if |id| < 6 then |id| else 6
    ensures forall i :: 0 <= i < |r| ==> !('a' <= r[i] <= 'z')
    ensures forall i :: 0 <= i < |r| ==> r[i] == UpperChar(id[|id| - |r| + i])
  {
    ToUpper(TakeLast(id, 6))
  }

  /** Two ids whose last six characters agree up to case share a code,
      whatever precedes them. */
  lemma OrderCodeIgnoresPrefix(p: string, q: string, tail1: string, tail2: string)
    requires |tail1| == 6 && |tail2| == 6
    requires ToUpper(tail1) == ToUpper(tail2)
    ensures OrderCode(p + tail1) == OrderCode(q + tail2)
  {
    assert (p + tail1)[|p|..] == tail1;
    assert (q + tail2)[|q|..] == tail2;
  }

  /** `item.quantity * item.price`. */
  function LineTotal(item: OrderCheckout.OrderItem): int {
    item.quantity * item.price
  }

  function ItemsTotal(items: seq<OrderCheckout.OrderItem>): int {
    if items == [] then 0 else LineTotal(items[0]) + ItemsTotal(items[1..])
  }

  /** For an order placed from a cart, the line totals shown here add up to the
      cart's subtotal, the stored total being that plus the shipping fee. */
  lemma {:induction false} LineTotalsMatchCart(c: Cart)
    ensures ItemsTotal(OrderCheckout.OrderItems(c)) == Subtotal(c)
  {
    if c != [] {
      LineTotalsMatchCart(c[1..]);
      assert OrderCheckout.OrderItems(c)[1..] == OrderCheckout.OrderItems(c[1..]);
      assert OrderCheckout.OrderItems(c)[0] == OrderCheckout.ToOrderItem(c[0]);
    }
  }

  // ---------------------------------------------------------------------------
  // Requests and replies

  /** What the list request can end in: a body with `success` and maybe
      `orders`, or a thrown error. */
  datatype ListReply = Listed(success: bool, orders: Option<seq<StoredOrder>>) | ListThrew

  /** The list after `getAllOrders`: replaced by `data.orders || []` only when
      the body says `success`, kept otherwise. */
  function Refreshed(prev: seq<StoredOrder>, reply: ListReply): (r: seq<StoredOrder>)
    ensures reply.Listed? && reply.success && reply.orders.Some? ==> r == reply.orders.value
    ensures reply.Listed? && reply.success && reply.orders.None? ==> r == []
    ensures !(reply.Listed? && reply.success) ==> r == prev
  {
    match reply
    case Listed(success, orders) => if success then orders.GetOr([]) else prev
    case ListThrew => prev
  }

  /** The toasts of `getAllOrders`: only a thrown error shows one. */
  function ListToasts(reply: ListReply): seq<Toast> {
    if reply.ListThrew? then [Error("Failed to fetch orders")] else []
  }

  /** A PUT body: the fields it names, with their new values. */
  type Body = map<string, string>

  function StatusBody(newStatus: string): Body {
    map["orderStatus" := newStatus]
  }

  function PaymentBody(newPaymentStatus: string): Body {
    map["paymentStatus" := newPaymentStatus]
  }

  /** What a partial update with `body` does to a stored order: each named
      status field takes its value, every other field stays. */
  function Patched(o: StoredOrder, body: Body): StoredOrder {
    o.(orderStatus := if "orderStatus" in body then body["orderStatus"] else o.orderStatus,
       paymentStatus := if "paymentStatus" in body then body["paymentStatus"] else o.paymentStatus)
  }

  /** A status update sets the order status, whatever it was before, and leaves
      the payment status; a payment update does the reverse. */
  lemma UpdatesTouchOneField(o: StoredOrder, s: string)
    ensures Patched(o, StatusBody(s)) == o.(orderStatus := s)
    ensures Patched(o, PaymentBody(s)) == o.(paymentStatus := s)
    ensures StatusBody(s).Keys == {"orderStatus"} && PaymentBody(s).Keys == {"paymentStatus"}
  {
    assert "orderStatus" != "paymentStatus";
  }

  class OrdersPage {
    var orders: seq<StoredOrder>
    var loading: bool

    constructor ()
      ensures orders == [] && loading
    {
      orders := [];
      loading := true;
    }

    /** `getAllOrders`. */
    method GetAllOrders(reply: ListReply) returns (toasts: seq<Toast>)
      modifies this
      ensures orders == Refreshed(old(orders), reply)
      ensures toasts == ListToasts(reply)
      ensures !loading
    {
      loading := true;
      if reply.Listed? {
        if reply.success {
          orders := reply.orders.GetOr([]);
        }
        toasts := [];
      } else {
        toasts := [Error("Failed to fetch orders")];
      }
      loading := false;
    }

    /** `handleStatusUpdate(orderId, newStatus)`: the request for `orderId`
        names only `orderStatus`.  A success shows its toast and refetches the list; a
        refusal does nothing more, and a thrown error shows a failure. */
    method HandleStatusUpdate(orderId: string, newStatus: string, reply: Reply, refetch: ListReply)
      returns (request: (string, Body), toasts: seq<Toast>)
      modifies this
      ensures request == (orderId, StatusBody(newStatus))
      ensures Succeeded(reply) ==>
                orders == Refreshed(old(orders), refetch) && !loading
                && toasts == [Success("Order status updated to " + newStatus)] + ListToasts(refetch)
      ensures !Succeeded(reply) ==> orders == old(orders) && loading == old(loading)
      ensures reply.Answered? && !reply.success ==> toasts == []
      ensures reply.Threw? ==> toasts == [Error("Failed to update order status")]
    {
      request := (orderId, StatusBody(newStatus));
      toasts := FinishUpdate(reply, "Order status updated to " + newStatus,
                             "Failed to update order status", refetch);
    }

    /** `handlePaymentStatusUpdate(orderId, newPaymentStatus)`: the body names
        only `paymentStatus`; the outcomes are those of a status update. */
    method HandlePaymentStatusUpdate(orderId: string, newPaymentStatus: string, reply: Reply, refetch: ListReply)
      returns (request: (string, Body), toasts: seq<Toast>)
      modifies this
      ensures request == (orderId, PaymentBody(newPaymentStatus))
      ensures Succeeded(reply) ==>
                orders == Refreshed(old(orders), refetch) && !loading
                && toasts == [Success("Payment status updated to " + newPaymentStatus)] + ListToasts(refetch)
      ensures !Succeeded(reply) ==> orders == old(orders) && loading == old(loading)
      ensures reply.Answered? && !reply.success ==> toasts == []
      ensures reply.Threw? ==> toasts == [Error("Failed to update payment status")]
    {
      request := (orderId, PaymentBody(newPaymentStatus));
      toasts := FinishUpdate(reply, "Payment status updated to " + newPaymentStatus,
                             "Failed to update payment status", refetch);
    }

    /** `handleDelete(orderId)`: without confirmation nothing is sent and
        nothing changes; with it, the outcomes are those of an update. */
    method HandleDelete(orderId: string, confirmed: bool, reply: Reply, refetch: ListReply)
      returns (sent: Option<string>, toasts: seq<Toast>)
      modifies this
      ensures sent.Some? <==> confirmed
      ensures confirmed ==> sent == Some(orderId)
      ensures !confirmed ==> toasts == [] && orders == old(orders) && loading == old(loading)
      ensures confirmed && Succeeded(reply) ==>
                orders == Refreshed(old(orders), refetch) && !loading
                && toasts == [Success("Order deleted successfully")] + ListToasts(refetch)
      ensures confirmed && !Succeeded(reply) ==> orders == old(orders) && loading == old(loading)
      ensures confirmed && reply.Answered? && !reply.success ==> toasts == []
      ensures confirmed && reply.Threw? ==> toasts == [Error("Failed to delete order")]
    {
      if !confirmed {
        return None, [];
      }
      sent := Some(orderId);
      toasts := FinishUpdate(reply, "Order deleted successfully", "Failed to delete order", refetch);
    }

    /** The shared tail of the three handlers once their request is answered. */
    method FinishUpdate(reply: Reply, done: string, failed: string, refetch: ListReply)
      returns (toasts: seq<Toast>)
      modifies this
      ensures Succeeded(reply) ==>
                orders == Refreshed(old(orders), refetch) && !loading
                && toasts == [Success(done)] + ListToasts(refetch)
      ensures !Succeeded(reply) ==> orders == old(orders) && loading == old(loading)
      ensures reply.Answered? && !reply.success ==> toasts == []
      ensures reply.Threw? ==> toasts == [Error(failed)]
    {
      match reply
      case Answered(success, _) =>
        if success {
          var more := GetAllOrders(refetch);
          toasts := [Success(done)] + more;
        } else {
          toasts := [];
        }
      case Threw(_) =>
        toasts := [Error(failed)];
    }
  }

  /** A failed or refused fetch never loses the orders already shown. */
  lemma {:induction false} FailedFetchesKeepList(prev: seq<StoredOrder>, replies: seq<ListReply>)
    requires forall i :: 0 <= i < |replies| ==> !(replies[i].Listed? && replies[i].success)
    ensures RefreshedAll(prev, replies) == prev
  {
    if replies != [] {
      FailedFetchesKeepList(Refreshed(prev, replies[0]), replies[1..]);
    }
  }

  /** The list after a series of fetches, in order. */
  function RefreshedAll(prev: seq<StoredOrder>, replies: seq<ListReply>): seq<StoredOrder>
    decreases |replies|
  {
    if replies == [] then prev else RefreshedAll(Refreshed(prev, replies[0]), replies[1..])
  }
}
