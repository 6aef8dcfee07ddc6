/** Inquiry submission, `POST` of app/api/orders/route.ts: validate the contact
    fields and the cart, store one order with one order item per cart line, and
    answer with an order number cut from the new order's id. */
module OrdersRoute {
  import opened Common
  import opened Types

  /** The JSON body: every field may be missing (`None`). */
  datatype OrderData = OrderData(
    name: Option<string>,
    phone: Option<string>,
    email: Option<string>,
    comment: Option<string>,
    items: Option<seq<CartItem>>,
    selectedCity: Option<string>)

  datatype OrderItem = OrderItem(productId: string, quantity: int)

  datatype Order = Order(
    id: string,
    name: string,
    email: string,
    phone: string,
    comment: string,
    cityId: string,
    items: seq<OrderItem>)

  /** The JSON reply: `success: true` with the order number and id, or
      `success: false` with a status and a message. */
  datatype InquiryReply = Accepted(orderNumber: string, orderId: string) | Refused(status: int, message: string) {
    predicate Success() { Accepted? }
    function Status(): int { if Accepted? then 200 else status }
  }

  const MissingFields := "Пожалуйста, заполните все обязательные поля"
  const CreateFailed := "Произошла ошибка при создании заявки"

  /** `toUpperCase` on one character; only the ASCII letters are mapped. */
  function UpperChar(c: char): char {
    if 'a' <= c <= 'z' then (c as int - 32) as char else c
  }

  lemma UpperCharNotLower(c: char)
    ensures !('a' <= UpperChar(c) <= 'z')
  {
  }

  function Upper(s: string): (r: string)
    ensures |r| == |s|
    ensures forall i :: 0 <= i < |s| ==> r[i] == UpperChar(s[i])
  {
    seq(|s|, i requires 0 <= i < |s| => UpperChar(s[i]))
  }

  /** `id.slice(-6).toUpperCase()`: the last six characters, or the whole id
      when it is shorter, upper-cased. */
  function OrderNumber(id: string): string {
    Upper(if |id| >= 6 then id[|id| - 6..] else id)
  }

  /** The order number is the upper-cased tail of the id, at most six long. */
  lemma OrderNumberIsUpperTail(id: string)
    ensures var n := OrderNumber(id);
      && |n| == (if |id| >= 6 then 6 else |id|)
      && (forall i :: 0 <= i < |n| ==> n[i] == UpperChar(id[|id| - |n| + i]))
      && (forall i :: 0 <= i < |n| ==> !('a' <= n[i] <= 'z'))
  {
    var t := if |id| >= 6 then id[|id| - 6..] else id;
    var n := Upper(t);
    assert |n| == |t|;
    forall i | 0 <= i < |n|
      ensures n[i] == UpperChar(id[|id| - |n| + i]) && !('a' <= n[i] <= 'z')
    {
      assert t[i] == id[|id| - |t| + i];
      UpperCharNotLower(t[i]);
    }
  }

  /** One order item per cart line, same product id and same quantity, in cart
      order; quantities are passed through unchecked. */
  function OrderItemsOf(items: seq<CartItem>): (r: seq<OrderItem>)
    ensures |r| == |items|
    ensures forall i :: 0 <= i < |items| ==>
      r[i].productId == items[i].id && r[i].quantity == items[i].quantity
  {
    seq(|items|, i requires 0 <= i < |items| => OrderItem(items[i].id, items[i].quantity))
  }

  /** The validation guard, in the order JavaScript evaluates it. `None` when
      the request passes; `Some(status)` when it is refused. A missing `items`
      reaches `.length` of undefined, which throws and ends in status 500. */
  function Rejection(data: OrderData): (r: Option<int>)
    ensures r == Some(400) ==>
      (!Present(data.name) || !Present(data.phone) || !Present(data.email)
       || (data.items.Some? && data.items.value == []) || !Present(data.selectedCity))
    ensures !Present(data.name) || !Present(data.phone) || !Present(data.email) ==> r == Some(400)
    ensures (Present(data.name) && Present(data.phone) && Present(data.email) && data.items.Some?
             && (data.items.value == [] || !Present(data.selectedCity))) ==> r == Some(400)
    ensures Present(data.name) && Present(data.phone) && Present(data.email) && data.items.None? ==>
      r == Some(500)
    ensures r.None? <==>
      (Present(data.name) && Present(data.phone) && Present(data.email)
       && data.items.Some? && data.items.value != [] && Present(data.selectedCity))
  {
    if !Present(data.name) || !Present(data.phone) || !Present(data.email) then Some(400)
    else if data.items.None? then Some(500)
    else if data.items.value == [] || !Present(data.selectedCity) then Some(400)
    else None
  }

  /** The order row the handler asks the store to create. */
  function OrderFrom(data: OrderData, id: string): Order
    requires Rejection(data).None?
  {
    Order(id, data.name.value, data.email.value, data.phone.value,
          OrElse(data.comment, ""), data.selectedCity.value, OrderItemsOf(data.items.value))
  }

  /** `POST /api/orders`. `body` is `None` when the request is not JSON;
      `newId` is the id the store assigns; `insertFails` says the store's
      create threw. Returns the reply and the new order table. */
  function SubmitInquiry(orders: seq<Order>, body: Option<OrderData>, newId: string, insertFails: bool)
    : (r: (InquiryReply, seq<Order>))
    ensures r.0.Refused? ==> r.1 == orders
    ensures r.0.Success() <==> body.Some? && Rejection(body.value).None? && !insertFails
    ensures r.0.Success() ==>
      (r.1 == orders + [OrderFrom(body.value, newId)] && r.0 == Accepted(OrderNumber(newId), newId))
    ensures r.0.Status() == 400 <==> body.Some? && Rejection(body.value) == Some(400)
    ensures r.0.Refused? && r.0.Status() != 400 ==> r.0.Status() == 500
  {
    if body.None? then (Refused(500, CreateFailed), orders)
    else match Rejection(body.value)
      case Some(400) => (Refused(400, MissingFields), orders)
      case Some(_) => (Refused(500, CreateFailed), orders)
      case None =>
        if insertFails then (Refused(500, CreateFailed), orders)
        else (Accepted(OrderNumber(newId), newId), orders + [OrderFrom(body.value, newId)])
  }

  /** A stored order keeps the contact fields, stores a missing comment as the
      empty string, takes its city from `selectedCity`, and has one item per
      cart line. */
  lemma StoredOrderFields(data: OrderData, id: string)
    requires Rejection(data).None?
    ensures var o := OrderFrom(data, id);
      && o.id == id && o.name == data.name.value && o.email == data.email.value
      && o.phone == data.phone.value && o.cityId == data.selectedCity.value
      && (!Present(data.comment) ==> o.comment == "")
      && (Present(data.comment) ==> o.comment == data.comment.value)
      && o.items == OrderItemsOf(data.items.value)
  {
  }

  /** Nothing checks that a quantity is positive: a line asking for -3 units
      goes straight into the order. */
  lemma NonPositiveQuantityStored()
    ensures var data := OrderData(Some("Анна"), Some("+7"), Some("a@b.c"), None,
                                  Some([CartItem("p1", "Лосось", 200, -3)]), Some("c1"));
      var r := SubmitInquiry([], Some(data), "order-abc123", false);
      && r.0 == Accepted("ABC123", "order-abc123")
      && r.1[0].items == [OrderItem("p1", -3)]
  {
    var data := OrderData(Some("Анна"), Some("+7"), Some("a@b.c"), None,
                          Some([CartItem("p1", "Лосось", 200, -3)]), Some("c1"));
    assert Rejection(data).None?;
    assert "order-abc123"[6..] == "abc123";
    assert Upper("abc123") == "ABC123";
  }
}
