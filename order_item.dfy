/** Order lines: an immutable value whose subtotal is fixed when it is built. */
module OrderItems {

  /** A `BigDecimal` amount of pesos, held exactly as a whole number of cents. */
  type Money = int

  datatype OrderItem = OrderItem(
    id: string,
    codigoProducto: string,
    nombreProducto: string,
    cantidad: int,
    precioUnitario: Money,
    subtotal: Money)

  /** What a caller supplies for one line of a create or update command. */
  datatype ItemCommand = ItemCommand(
    codigoProducto: string,
    nombreProducto: string,
    cantidad: int,
    precioUnitario: Money)

  /**
    The four-argument constructor; `id` is the random UUID it draws.
    The datatype is immutable, so the subtotal stays what it was computed to be.
  */
  function NewOrderItem(id: string, codigoProducto: string, nombreProducto: string,
                        cantidad: int, precioUnitario: Money): (item: OrderItem)
    ensures item.id == id
    ensures item.codigoProducto == codigoProducto && item.nombreProducto == nombreProducto
    ensures item.cantidad == cantidad && item.precioUnitario == precioUnitario
    ensures item.subtotal == precioUnitario * cantidad
  {
    OrderItem(id, codigoProducto, nombreProducto, cantidad, precioUnitario, precioUnitario * cantidad)
  }

  /** A line of at least one unit at a positive price costs at least its unit price. */
  lemma SubtotalAtLeastPrice(id: string, codigoProducto: string, nombreProducto: string,
                             cantidad: int, precioUnitario: Money)
    requires cantidad >= 1 && precioUnitario > 0
    ensures NewOrderItem(id, codigoProducto, nombreProducto, cantidad, precioUnitario).subtotal >= precioUnitario > 0
  {
    var extra := cantidad - 1;
    assert precioUnitario * cantidad == precioUnitario + precioUnitario * extra;
  }

  /** The item a command line becomes, given the UUID drawn for it. */
  function ItemFromCommand(id: string, c: ItemCommand): (item: OrderItem)
    ensures item.subtotal == c.precioUnitario * c.cantidad
  {
    NewOrderItem(id, c.codigoProducto, c.nombreProducto, c.cantidad, c.precioUnitario)
  }

  /** Sum of the subtotals, as `stream().map(getSubtotal).reduce(ZERO, add)`. */
  function SumSubtotals(items: seq<OrderItem>): (total: Money)
  {
    if items == [] then 0 else SumSubtotals(items[..|items| - 1]) + items[|items| - 1].subtotal
  }

  /** Σ price × quantity over command lines, without building items. */
  function CommandsTotal(cmds: seq<ItemCommand>): (total: Money)
  {
    if cmds == [] then 0 else cmds[0].precioUnitario * cmds[0].cantidad + CommandsTotal(cmds[1..])
  }

  /** Appending one item adds exactly its subtotal. */
  lemma SumAppend(items: seq<OrderItem>, item: OrderItem)
    ensures SumSubtotals(items + [item]) == SumSubtotals(items) + item.subtotal
  {
    assert (items + [item])[..|items|] == items;
  }

  /** Prepending one item adds exactly its subtotal. */
  lemma {:induction false} SumPrepend(item: OrderItem, items: seq<OrderItem>)
    ensures SumSubtotals([item] + items) == item.subtotal + SumSubtotals(items)
  {
    if items != [] {
      var init := items[..|items| - 1];
      assert ([item] + items)[..|items|] == [item] + init;
      SumPrepend(item, init);
    }
  }

  /** The items built from some command lines, one UUID per line, in command order. */
  function ItemsFromCommands(ids: seq<string>, cmds: seq<ItemCommand>): (items: seq<OrderItem>)
    requires |ids| == |cmds|
    ensures |items| == |cmds|
    ensures forall i :: 0 <= i < |cmds| ==> items[i] == ItemFromCommand(ids[i], cmds[i])
  {
    seq(|cmds|, i requires 0 <= i < |cmds| => ItemFromCommand(ids[i], cmds[i]))
  }

  /** Building one more command line appends one more item. */
  lemma ItemsFromCommandsSnoc(ids: seq<string>, cmds: seq<ItemCommand>, i: nat)
    requires |ids| == |cmds| && i < |cmds|
    ensures ItemsFromCommands(ids[..i + 1], cmds[..i + 1])
         == ItemsFromCommands(ids[..i], cmds[..i]) + [ItemFromCommand(ids[i], cmds[i])]
  {
  }

  /** The total of the built items is Σ price × quantity of the commands. */
  lemma {:induction false} ItemsTotalIsCommandsTotal(ids: seq<string>, cmds: seq<ItemCommand>)
    requires |ids| == |cmds|
    ensures SumSubtotals(ItemsFromCommands(ids, cmds)) == CommandsTotal(cmds)
  {
    if cmds != [] {
      var items := ItemsFromCommands(ids, cmds);
      ItemsTotalIsCommandsTotal(ids[1..], cmds[1..]);
      assert items == [items[0]] + ItemsFromCommands(ids[1..], cmds[1..]);
      SumPrepend(items[0], ItemsFromCommands(ids[1..], cmds[1..]));
    }
  }

  /** Lines of positive quantity and price give a positive total whenever there is at least one. */
  lemma {:induction false} SumPositive(items: seq<OrderItem>)
    requires forall i :: 0 <= i < |items| ==> items[i].subtotal > 0
    ensures SumSubtotals(items) >= 0
    ensures items != [] ==> SumSubtotals(items) > 0
  {
    if items != [] {
      SumPositive(items[..|items| - 1]);
    }
  }
}
