/** The order lifecycle states and their Spanish display names. */
module OrderStatuses {

  datatype OrderStatus = PENDING | CONFIRMED | PROCESSING | SHIPPED | DELIVERED | CANCELLED

  /** The enum's values in declaration order. */
  const AllStatuses: seq<OrderStatus> := [PENDING, CONFIRMED, PROCESSING, SHIPPED, DELIVERED, CANCELLED]

  /** Position of a status in the declaration (Java's `ordinal()`). */
  function Ordinal(s: OrderStatus): (k: nat)
    ensures k < |AllStatuses| && AllStatuses[k] == s
  {
    match s
    case PENDING => 0
    case CONFIRMED => 1
    case PROCESSING => 2
    case SHIPPED => 3
    case DELIVERED => 4
    case CANCELLED => 5
  }

  /** There are exactly six statuses, all different, and every status is one of them. */
  lemma ExactlySixStatuses()
    ensures |AllStatuses| == 6
    ensures forall i, j :: 0 <= i < j < |AllStatuses| ==> AllStatuses[i] != AllStatuses[j]
    ensures forall s: OrderStatus :: s in AllStatuses
  {
    forall s: OrderStatus ensures s in AllStatuses {
      assert AllStatuses[Ordinal(s)] == s;
    }
  }

  /** The display name each status is declared with. */
  function DisplayName(s: OrderStatus): (name: string)
    ensures |name| > 0
  {
    match s
    case PENDING => "Pendiente"
    case CONFIRMED => "Confirmado"
    case PROCESSING => "En Proceso"
    case SHIPPED => "Enviado"
    case DELIVERED => "Entregado"
    case CANCELLED => "Cancelado"
  }

  /** No two statuses share a display name, so the name identifies the status. */
  lemma DisplayNameInjective(a: OrderStatus, b: OrderStatus)
    ensures DisplayName(a) == DisplayName(b) <==> a == b
  {
  }
}
