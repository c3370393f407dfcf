/** The exceptions the order service raises, as values. */
module OrderErrors {
  import opened OrderStatuses

  datatype OrderError =
    | CustomerNotFound                                      // CustomerNotFoundException
    | CustomerServiceUnavailable                            // CustomerServiceUnavailableException
    | OrderNotFound(orderId: string)                        // OrderNotFoundException.withOrderId
    | InvalidOrderStatus(from: OrderStatus, to: OrderStatus) // InvalidOrderStatusException
    | OrderCannotBeCancelled(orderId: string, status: OrderStatus)
    | IllegalState(status: OrderStatus)                     // IllegalStateException from updateOrder
    | NullStatus                                            // NullPointerException on a missing status's display name
}
