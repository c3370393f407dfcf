/**
  The order use cases. Each one loads an order from the repository, checks it,
  mutates the loaded object in place and saves it back.
*/
module OrderServices {
  import opened Wrappers
  import opened Clock
  import opened OrderStatuses
  import opened OrderItems
  import opened OrderErrors
  import opened Orders
  import opened OrderNumbers

  datatype CreateOrderCommand = CreateOrderCommand(customerId: string, items: seq<ItemCommand>, notas: Option<string>)

  /** Both parts may be missing (null). */
  datatype UpdateOrderCommand = UpdateOrderCommand(items: Option<seq<ItemCommand>>, notas: Option<string>)

  /** `updateOrder` replaces the items only when the command carries a non-empty list. */
  predicate ReplacesItems(cmd: UpdateOrderCommand)
  {
    cmd.items.Some? && cmd.items.value != []
  }

  class OrderService {
    /** The repository port, keyed by the business id `orderId`. */
    var orders: map<string, OrderData>

    /** Every record is stored under its own orderId: save is an upsert, never a duplicate. */
    ghost predicate Valid()
      reads this
    {
      forall id :: id in orders ==> orders[id].orderId == id
    }

    constructor (initial: map<string, OrderData>)
      requires forall id :: id in initial ==> initial[id].orderId == id
      ensures Valid() && orders == initial
    {
      orders := initial;
    }

    /** `OrderRepositoryPort.save`: replaces the record with the same orderId, or adds one. */
    method Save(o: Order) returns (saved: OrderData)
      requires Valid()
      modifies this
      ensures Valid()
      ensures saved == o.Data()
      ensures orders == old(orders)[o.orderId := saved]
    {
      saved := o.Data();
      orders := orders[o.orderId := saved];
    }

    /** `getOrderByOrderId`: the stored order, or OrderNotFound. */
    function GetOrderByOrderId(orderId: string): (r: Result<OrderData, OrderError>)
      reads this
      requires Valid()
      ensures r.Success? <==> orderId in orders
      ensures r.Success? ==> r.value == orders[orderId] && r.value.orderId == orderId
      ensures r.Failure? ==> r.error == OrderNotFound(orderId)
    {
      if orderId in orders then Success(orders[orderId]) else Failure(OrderNotFound(orderId))
    }

    /**
      `createOrder`. `answer` is what the customer-validation port answered (or threw)
      for the command's customer; `orderId`, `numberUuid` and `itemIds` are the random
      UUIDs drawn, and `now` the clock reading.
    */
    method CreateOrder(cmd: CreateOrderCommand, answer: Result<bool, OrderError>,
                       orderId: string, numberUuid: string, itemIds: seq<string>, now: DateTime)
      returns (r: Result<OrderData, OrderError>)
      requires Valid()
      requires now.Valid() && |numberUuid| >= 8 && |itemIds| == |cmd.items|
      modifies this
      ensures Valid()
      ensures answer.Failure? ==> r == Failure(answer.error) && orders == old(orders)
      ensures answer == Success(false) ==> r == Failure(CustomerNotFound) && orders == old(orders)
      ensures answer == Success(true) ==>
        && r.Success?
        && r.value == OrderData(orderId, cmd.customerId, GenerateOrderNumber(now, numberUuid),
                                Some(ItemsFromCommands(itemIds, cmd.items)), CommandsTotal(cmd.items),
                                Some(PENDING), cmd.notas, now, now)
        && orders == old(orders)[orderId := r.value]
    {
      if answer.Failure? {
        return Failure(answer.error);
      }
      if !answer.value {
        return Failure(CustomerNotFound);
      }
      var orderNumber := GenerateOrderNumber(now, numberUuid);
      var order := new Order(OrderData(orderId, cmd.customerId, orderNumber,
                                       Some([]), 0, Some(PENDING), cmd.notas, now, now));
      ghost var built := order.Data();
      var i := 0;
      while i < |cmd.items|
        invariant 0 <= i <= |cmd.items|
        invariant orders == old(orders)
        invariant order.items == Some(ItemsFromCommands(itemIds[..i], cmd.items[..i]))
        invariant order.totalAmount == SumSubtotals(order.items.value)
        invariant order.Data() == built.(items := order.items, totalAmount := order.totalAmount)
      {
        var item := ItemFromCommand(itemIds[i], cmd.items[i]);
        order.AddItem(item);
        ItemsFromCommandsSnoc(itemIds, cmd.items, i);
        i := i + 1;
      }
      assert itemIds[..i] == itemIds && cmd.items[..i] == cmd.items;
      ItemsTotalIsCommandsTotal(itemIds, cmd.items);
      var saved := Save(order);
      return Success(saved);
    }

    /**
      `updateOrder`. Only a PENDING order may be updated; the notes are replaced when
      given, the items (and with them the total) when a non-empty list is given.
    */
    method UpdateOrder(orderId: string, cmd: UpdateOrderCommand, itemIds: seq<string>, now: DateTime)
      returns (r: Result<OrderData, OrderError>)
      requires Valid()
      requires cmd.items.Some? ==> |itemIds| == |cmd.items.value|
      modifies this
      ensures Valid()
      ensures orderId !in old(orders) ==> r == Failure(OrderNotFound(orderId))
      ensures orderId in old(orders) && old(orders)[orderId].status != Some(PENDING) ==>
        r == Failure(match old(orders)[orderId].status
                     case None => NullStatus
                     case Some(s) => IllegalState(s))
      ensures r.Failure? ==> orders == old(orders)
      ensures orderId in old(orders) && old(orders)[orderId].status == Some(PENDING) ==>
        var d := old(orders)[orderId];
        && r.Success?
        && r.value == d.(notas := if cmd.notas.Some? then cmd.notas else d.notas,
                         items := if ReplacesItems(cmd) then Some(ItemsFromCommands(itemIds, cmd.items.value)) else d.items,
                         totalAmount := if ReplacesItems(cmd) then CommandsTotal(cmd.items.value) else d.totalAmount,
                         fechaActualizacion := now)
        && orders == old(orders)[orderId := r.value]
    {
      if orderId !in orders {
        return Failure(OrderNotFound(orderId));
      }
      var order := new Order(orders[orderId]);
      if order.status != Some(PENDING) {
        if order.status.None? {
          return Failure(NullStatus);
        }
        return Failure(IllegalState(order.status.value));
      }
      if cmd.notas.Some? {
        order.notas := cmd.notas;
      }
      if ReplacesItems(cmd) {
        var cmds := cmd.items.value;
        var newItems: seq<OrderItem> := [];
        var i := 0;
        while i < |cmds|
          invariant 0 <= i <= |cmds|
          invariant newItems == ItemsFromCommands(itemIds[..i], cmds[..i])
        {
          newItems := newItems + [ItemFromCommand(itemIds[i], cmds[i])];
          i := i + 1;
        }
        assert itemIds[..i] == itemIds && cmds[..i] == cmds;
        ItemsTotalIsCommandsTotal(itemIds, cmds);
        order.items := Some(newItems);
        order.totalAmount := order.CalculateTotal();
      }
      order.fechaActualizacion := now;
      var saved := Save(order);
      return Success(saved);
    }

    /** `cancelOrder`: PENDING and CONFIRMED orders become CANCELLED; any other status is refused. */
    method CancelOrder(orderId: string, now: DateTime) returns (r: Result<OrderData, OrderError>)
      requires Valid()
      modifies this
      ensures Valid()
      ensures orderId !in old(orders) ==> r == Failure(OrderNotFound(orderId))
      ensures orderId in old(orders) && !CanBeCancelled(old(orders)[orderId].status) ==>
        r == Failure(match old(orders)[orderId].status
                     case None => NullStatus
                     case Some(s) => OrderCannotBeCancelled(orderId, s))
      ensures r.Failure? ==> orders == old(orders)
      ensures orderId in old(orders) && CanBeCancelled(old(orders)[orderId].status) ==>
        && r.Success?
        && r.value == old(orders)[orderId].(status := Some(CANCELLED), fechaActualizacion := now)
        && orders == old(orders)[orderId := r.value]
    {
      if orderId !in orders {
        return Failure(OrderNotFound(orderId));
      }
      var order := new Order(orders[orderId]);
      if !CanBeCancelled(order.status) {
        if order.status.None? {
          return Failure(NullStatus);
        }
        return Failure(OrderCannotBeCancelled(orderId, order.status.value));
      }
      var changed := order.ChangeStatus(CANCELLED, now);
      assert changed.Pass?;
      order.fechaActualizacion := now;
      var saved := Save(order);
      return Success(saved);
    }

    /** `updateOrderStatus`: saves the order only when the status machine accepts the move. */
    method UpdateOrderStatus(orderId: string, newStatus: OrderStatus, now: DateTime)
      returns (r: Result<OrderData, OrderError>)
      requires Valid()
      modifies this
      ensures Valid()
      ensures orderId !in old(orders) ==> r == Failure(OrderNotFound(orderId))
      ensures orderId in old(orders) && !IsValidTransition(old(orders)[orderId].status, newStatus) ==>
        r == Failure(InvalidOrderStatus(old(orders)[orderId].status.value, newStatus))
      ensures r.Failure? ==> orders == old(orders)
      ensures orderId in old(orders) && IsValidTransition(old(orders)[orderId].status, newStatus) ==>
        && r.Success?
        && r.value == old(orders)[orderId].(status := Some(newStatus), fechaActualizacion := now)
        && orders == old(orders)[orderId := r.value]
    {
      if orderId !in orders {
        return Failure(OrderNotFound(orderId));
      }
      var order := new Order(orders[orderId]);
      var changed := order.ChangeStatus(newStatus, now);
      if changed.Fail? {
        return Failure(changed.error);
      }
      order.fechaActualizacion := now;
      var saved := Save(order);
      return Success(saved);
    }
  }
}
