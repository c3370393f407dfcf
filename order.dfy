/**
  The order aggregate: its item list and running total, and the status machine

    PENDING -> CONFIRMED | CANCELLED
    CONFIRMED -> PROCESSING | CANCELLED
    PROCESSING -> SHIPPED
    SHIPPED -> DELIVERED
    DELIVERED, CANCELLED: terminal
*/
module Orders {
  import opened Wrappers
  import opened Clock
  import opened OrderStatuses
  import opened OrderItems
  import opened OrderErrors

  // ---------------------------------------------------------------------------
  // Status machine

  /** The allowed moves, as a table of (from, to) pairs. */
  const Transitions: set<(OrderStatus, OrderStatus)> :=
    {(PENDING, CONFIRMED), (PENDING, CANCELLED),
     (CONFIRMED, PROCESSING), (CONFIRMED, CANCELLED),
     (PROCESSING, SHIPPED),
     (SHIPPED, DELIVERED)}

  /** `isValidTransition`: a missing status accepts any target; otherwise the switch on the current status. */
  function IsValidTransition(current: Option<OrderStatus>, next: OrderStatus): (ok: bool)
    ensures current.None? ==> ok
    ensures current.Some? ==> (ok <==> (current.value, next) in Transitions)
  {
    match current
    case None => true
    case Some(s) =>
      match s
      case PENDING => next == CONFIRMED || next == CANCELLED
      case CONFIRMED => next == PROCESSING || next == CANCELLED
      case PROCESSING => next == SHIPPED
      case SHIPPED => next == DELIVERED
      case DELIVERED => false
      case CANCELLED => false
  }

  /** `canBeCancelled` */
  predicate CanBeCancelled(status: Option<OrderStatus>): (b: bool)
    ensures b <==> status.Some? && (status.value, CANCELLED) in Transitions
  {
    status == Some(PENDING) || status == Some(CONFIRMED)
  }

  /**
    An order can be cancelled exactly when it has a status and `changeStatus(CANCELLED)`
    would accept the move; a missing status is accepted by the transition check but is
    not cancellable.
  */
  lemma CancellableIffCancelIsMove(status: Option<OrderStatus>)
    ensures CanBeCancelled(status) <==> status.Some? && IsValidTransition(status, CANCELLED)
    ensures status.None? ==> !CanBeCancelled(status) && IsValidTransition(status, CANCELLED)
  {
  }

  /** No status moves to itself. */
  lemma NoSelfTransition(s: OrderStatus)
    ensures !IsValidTransition(Some(s), s)
  {
  }

  predicate IsTerminal(s: OrderStatus) { s == DELIVERED || s == CANCELLED }

  /** DELIVERED and CANCELLED, and only they, have no way out. */
  lemma TerminalIffNoMove(s: OrderStatus)
    ensures IsTerminal(s) <==> forall t :: !IsValidTransition(Some(s), t)
  {
    if !IsTerminal(s) {
      var t := match s
        case PENDING => CONFIRMED
        case CONFIRMED => PROCESSING
        case PROCESSING => SHIPPED
        case _ => DELIVERED;
      assert IsValidTransition(Some(s), t);
    }
  }

  /** Every move goes forward in declaration order. */
  lemma TransitionAdvances(a: OrderStatus, b: OrderStatus)
    requires IsValidTransition(Some(a), b)
    ensures Ordinal(a) < Ordinal(b)
  {
  }

  /** A run of statuses in which each step is an accepted move. */
  predicate IsValidPath(p: seq<OrderStatus>)
  {
    forall i :: 0 <= i < |p| - 1 ==> IsValidTransition(Some(p[i]), p[i + 1])
  }

  /** Along any run the declaration order strictly increases, so no status is ever revisited. */
  lemma {:induction false} PathIsStrictlyIncreasing(p: seq<OrderStatus>)
    requires IsValidPath(p)
    ensures forall i, j :: 0 <= i < j < |p| ==> Ordinal(p[i]) < Ordinal(p[j])
  {
    if |p| > 1 {
      var tail := p[1..];
      assert IsValidPath(tail) by {
        forall i | 0 <= i < |tail| - 1 ensures IsValidTransition(Some(tail[i]), tail[i + 1]) {
          assert tail[i] == p[i + 1] && tail[i + 1] == p[i + 2];
        }
      }
      PathIsStrictlyIncreasing(tail);
      TransitionAdvances(p[0], p[1]);
      forall i, j | 0 <= i < j < |p| ensures Ordinal(p[i]) < Ordinal(p[j]) {
        if i > 0 {
          assert p[i] == tail[i - 1] && p[j] == tail[j - 1];
        } else if j > 1 {
          assert p[1] == tail[0] && p[j] == tail[j - 1];
        }
      }
    }
  }

  /** Hence a run never repeats a status and has at most six. */
  lemma PathHasNoRepeats(p: seq<OrderStatus>)
    requires IsValidPath(p)
    ensures forall i, j :: 0 <= i < j < |p| ==> p[i] != p[j]
    ensures |p| <= |AllStatuses|
  {
    PathIsStrictlyIncreasing(p);
    if |p| > |AllStatuses| {
      PathOrdinalBound(p, |p| - 1);
    }
  }

  lemma {:induction false} PathOrdinalBound(p: seq<OrderStatus>, k: nat)
    requires forall i, j :: 0 <= i < j < |p| ==> Ordinal(p[i]) < Ordinal(p[j])
    requires k < |p|
    ensures Ordinal(p[k]) >= k
  {
    if k > 0 {
      PathOrdinalBound(p, k - 1);
    }
  }

  /** The full delivery route is a valid run. */
  lemma DeliveryRouteIsValid()
    ensures IsValidPath([PENDING, CONFIRMED, PROCESSING, SHIPPED, DELIVERED])
  {
  }

  // ---------------------------------------------------------------------------
  // The aggregate

  /** The fields of an order, as stored by the repository. */
  datatype OrderData = OrderData(
    orderId: string,
    customerId: string,
    orderNumber: string,
    items: Option<seq<OrderItem>>,
    totalAmount: Money,
    status: Option<OrderStatus>,
    notas: Option<string>,
    fechaPedido: DateTime,
    fechaActualizacion: DateTime)

  /** `calculateTotal` on a possibly missing item list. */
  function TotalOf(items: Option<seq<OrderItem>>): (total: Money)
    ensures items.None? || items == Some([]) ==> total == 0
    ensures items.Some? ==> total == SumSubtotals(items.value)
  {
    match items
    case None => 0
    case Some(s) => if s == [] then 0 else SumSubtotals(s)
  }

  class Order {
    var orderId: string
    var customerId: string
    var orderNumber: string
    var items: Option<seq<OrderItem>>
    var totalAmount: Money
    var status: Option<OrderStatus>
    var notas: Option<string>
    var fechaPedido: DateTime
    var fechaActualizacion: DateTime

    function Data(): OrderData
      reads this
    {
      OrderData(orderId, customerId, orderNumber, items, totalAmount, status, notas,
                fechaPedido, fechaActualizacion)
    }

    /** The builder, or the persistence mapper's `toDomain`: every field as given. */
    constructor (d: OrderData)
      ensures Data() == d
    {
      orderId, customerId, orderNumber := d.orderId, d.customerId, d.orderNumber;
      items, totalAmount, status, notas := d.items, d.totalAmount, d.status, d.notas;
      fechaPedido, fechaActualizacion := d.fechaPedido, d.fechaActualizacion;
    }

    /** `calculateTotal` */
    function CalculateTotal(): (total: Money)
      reads this
      ensures items.None? || items.value == [] ==> total == 0
      ensures items.Some? ==> total == SumSubtotals(items.value)
    {
      TotalOf(items)
    }

    /** Appends one item (creating the list if missing) and recomputes the total. */
    method AddItem(item: OrderItem)
      modifies this
      ensures items.Some? && items.value == old(items).GetOr([]) + [item]
      ensures totalAmount == CalculateTotal() == old(CalculateTotal()) + item.subtotal
      ensures Data() == old(Data()).(items := items, totalAmount := totalAmount)
    {
      var current := items.GetOr([]);
      SumAppend(current, item);
      items := Some(current + [item]);
      totalAmount := CalculateTotal();
    }

    /** Moves to `newStatus` if the machine allows it, stamping the update time; otherwise throws and changes nothing. */
    method ChangeStatus(newStatus: OrderStatus, now: DateTime) returns (r: Outcome<OrderError>)
      modifies this
      ensures r.Pass? <==> IsValidTransition(old(status), newStatus)
      ensures r.Pass? ==> Data() == old(Data()).(status := Some(newStatus), fechaActualizacion := now)
      ensures r.Fail? ==> old(status).Some? && r.error == InvalidOrderStatus(old(status).value, newStatus)
      ensures r.Fail? ==> Data() == old(Data())
    {
      if !IsValidTransition(status, newStatus) {
        return Fail(InvalidOrderStatus(status.value, newStatus));
      }
      status := Some(newStatus);
      fechaActualizacion := now;
      return Pass;
    }
  }
}
