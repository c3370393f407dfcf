/**
  Concrete runs of the services, reasoned about through their contracts only:
  some follow the unit tests, the others are additional scenarios.
*/
module Scenarios {
  import opened Wrappers
  import opened Clock
  import opened OrderStatuses
  import opened OrderItems
  import opened OrderErrors
  import opened Orders
  import opened OrderServices
  import Customers

  const Now: DateTime := DateTime(2024, 1, 15, 10, 30, 0)

  function PendingOrder(orderId: string): OrderData
  {
    OrderData(orderId, "c1", "ORD-20240115103000-ABCD1234", Some([]), 0, Some(PENDING), None, Now, Now)
  }

  /** One line of 2 x 100.00 gives a total of 200.00, as the order-total unit test expects. */
  method CreateOneLineOrder()
  {
    var service := new OrderService(map[]);
    var cmds := [ItemCommand("PROD-001", "Test Product", 2, 10000)];
    var cmd := CreateOrderCommand("c1", cmds, Some("Test order"));
    var r := service.CreateOrder(cmd, Success(true), "o1", "a1b2c3d4-0000", ["item-001"], Now);
    assert CommandsTotal(cmds) == 20000;
    assert r.Success? && r.value.totalAmount == 20000;
    assert service.orders["o1"].totalAmount == 20000;
  }

  /**
    PENDING -> CONFIRMED -> PROCESSING -> SHIPPED -> DELIVERED succeeds step by step,
    as in the unit test; a cancel of the delivered order then fails (additional).
  */
  method DeliveryChain()
  {
    var service := new OrderService(map["o1" := PendingOrder("o1")]);
    var r := service.UpdateOrderStatus("o1", CONFIRMED, Now);
    assert r.Success? && r.value.status == Some(CONFIRMED);
    r := service.UpdateOrderStatus("o1", PROCESSING, Now);
    assert r.Success?;
    r := service.UpdateOrderStatus("o1", SHIPPED, Now);
    assert r.Success?;
    r := service.UpdateOrderStatus("o1", DELIVERED, Now);
    assert r.Success? && service.orders["o1"].status == Some(DELIVERED);
    r := service.CancelOrder("o1", Now);
    assert r == Failure(OrderCannotBeCancelled("o1", DELIVERED));
  }

  /** PENDING cannot skip to PROCESSING, and nothing is saved (additional). */
  method SkippingAStepFails()
  {
    var service := new OrderService(map["o1" := PendingOrder("o1")]);
    var r := service.UpdateOrderStatus("o1", PROCESSING, Now);
    assert r == Failure(InvalidOrderStatus(PENDING, PROCESSING));
    assert service.orders["o1"] == PendingOrder("o1");
  }

  /** Two lines, 2 x 100.00 and 1 x 50.00, total 250.00; a "no" from validation saves nothing (additional). */
  method CreateTwoLineOrder()
  {
    var service := new OrderService(map[]);
    var cmds := [ItemCommand("P1", "Uno", 2, 10000), ItemCommand("P2", "Dos", 1, 5000)];
    var cmd := CreateOrderCommand("c1", cmds, None);
    var rejected := service.CreateOrder(cmd, Success(false), "o1", "abcdef12-0000", ["i1", "i2"], Now);
    assert rejected == Failure(CustomerNotFound) && service.orders == map[];
    var r := service.CreateOrder(cmd, Success(true), "o1", "abcdef12-0000", ["i1", "i2"], Now);
    assert CommandsTotal(cmds) == 25000;
    assert r.Success? && r.value.totalAmount == 25000 && r.value.status == Some(PENDING);
    assert r.value.orderNumber[..4] == "ORD-";
  }

  /** Updating a CONFIRMED order fails whatever the command holds, as in the unit test. */
  method UpdateConfirmedFails()
  {
    var service := new OrderService(map["o1" := PendingOrder("o1").(status := Some(CONFIRMED))]);
    var r := service.UpdateOrder("o1", UpdateOrderCommand(None, Some("nota")), [], Now);
    assert r == Failure(IllegalState(CONFIRMED));
  }

  /** A soft-deleted customer no longer exists, so a second delete fails (additional). */
  method DeleteTwice(c: Customers.Customer)
  {
    var service := new Customers.CustomerService(map[c.customerId := c.(activo := true)]);
    var first := service.DeleteCustomer(c.customerId);
    assert first.Pass?;
    var second := service.DeleteCustomer(c.customerId);
    assert second == Fail(Customers.CustomerNotFound(c.customerId));
    var found := service.ValidateMultipleCustomers([c.customerId]);
    assert found[c.customerId] == false;
  }
}
