/** The order and payment collections. Each document sits under its public id,
    which the schemas make unique; the database's internal `_id` references
    between documents are represented by those public ids. */
module Store {
  import opened Common
  import opened OrderModel
  import opened PaymentModel

  predicate OrdersKeyed(orders: map<string, Order>) {
    forall k :: k in orders ==> orders[k].orderId == k
  }

  predicate PaymentsKeyed(payments: map<string, Payment>) {
    forall k :: k in payments ==> payments[k].paymentId == k
  }

  class Database {
    var orders: map<string, Order>
    var payments: map<string, Payment>

    constructor ()
      ensures orders == map[] && payments == map[]
    {
      orders := map[];
      payments := map[];
    }

    /** The unique indexes on `orderId` and `paymentId`. */
    ghost predicate Valid()
      reads this
    {
      OrdersKeyed(orders) && PaymentsKeyed(payments)
    }
  }

  /** `Order.findOne({ orderId, userId })`: the order with that id, if the caller owns it. */
  function FindOwnedOrder(orders: map<string, Order>, orderId: string, userId: UserId): (r: Option<Order>)
    ensures r.Some? <==> orderId in orders && orders[orderId].userId == userId
    ensures r.Some? ==> r.value == orders[orderId] && r.value.userId == userId
    ensures OrdersKeyed(orders) ==>
      (r.Some? <==> exists o :: o in orders.Values && o.orderId == orderId && o.userId == userId)
    ensures OrdersKeyed(orders) && r.Some? ==> r.value.orderId == orderId
  {
    if orderId in orders && orders[orderId].userId == userId then
      assert orders[orderId] in orders.Values;
      Some(orders[orderId])
    else
      assert forall o :: o in orders.Values ==> exists k :: k in orders && orders[k] == o;
      None
  }

  /** `Payment.findOne({ paymentId, userId })`: the payment with that id, if the caller owns it. */
  function FindOwnedPayment(payments: map<string, Payment>, paymentId: string, userId: UserId): (r: Option<Payment>)
    ensures r.Some? <==> paymentId in payments && payments[paymentId].userId == userId
    ensures r.Some? ==> r.value == payments[paymentId] && r.value.userId == userId
    ensures PaymentsKeyed(payments) ==>
      (r.Some? <==> exists p :: p in payments.Values && p.paymentId == paymentId && p.userId == userId)
    ensures PaymentsKeyed(payments) && r.Some? ==> r.value.paymentId == paymentId
  {
    if paymentId in payments && payments[paymentId].userId == userId then
      assert payments[paymentId] in payments.Values;
      Some(payments[paymentId])
    else
      assert forall p :: p in payments.Values ==> exists k :: k in payments && payments[k] == p;
      None
  }
}
