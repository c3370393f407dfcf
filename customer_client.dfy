/**
  The customer-validation adapter of the order service: one remote answer is
  classified into a boolean or one of two domain errors. The retry and
  circuit-breaker policies wrapped around it are not modelled.
*/
module CustomerClient {
  import opened Wrappers
  import opened OrderErrors
  import opened FeignErrorDecoder

  datatype CustomerExistsResponse = CustomerExistsResponse(
    customerId: Option<string>, isExists: bool, message: Option<string>)

  /** The response envelope; `data` may be null. */
  datatype CustomerApiResponse = CustomerApiResponse(
    success: bool, data: Option<CustomerExistsResponse>, message: Option<string>)

  /** An exception the remote call can throw. */
  datatype RemoteException =
    | FeignNotFound                       // FeignException.NotFound
    | OtherFeign                          // any other FeignException (error status, connection failure)
    | DecoderError(error: OrderError)     // a domain exception built by the error decoder

  /** What the remote call did: returned a body (possibly null) or threw. */
  datatype RemoteCall = Returned(response: Option<CustomerApiResponse>) | Threw(exception: RemoteException)

  /** A body that carries an authoritative answer: present, successful, with data. */
  predicate IsUsable(response: Option<CustomerApiResponse>)
  {
    response.Some? && response.value.success && response.value.data.Some?
  }

  /** `customerExists`: the adapter body, without the resilience annotations. */
  function CustomerExists(call: RemoteCall): (r: Result<bool, OrderError>)
    ensures r.Success? <==> call.Returned? && IsUsable(call.response)
    ensures r.Success? ==> r.value == call.response.value.data.value.isExists
    ensures r == Success(true) <==>
      call.Returned? && IsUsable(call.response) && call.response.value.data.value.isExists
    ensures call.Returned? && !IsUsable(call.response) ==> r == Failure(CustomerNotFound)
    ensures call == Threw(FeignNotFound) ==> r == Failure(CustomerNotFound)
    ensures call == Threw(OtherFeign) ==> r == Failure(CustomerServiceUnavailable)
    ensures call.Threw? && call.exception.DecoderError? ==> r == Failure(call.exception.error)
  {
    match call
    case Returned(response) =>
      if response.None? || !response.value.success || response.value.data.None? then
        Failure(CustomerNotFound)
      else
        Success(response.value.data.value.isExists)
    case Threw(FeignNotFound) => Failure(CustomerNotFound)
    case Threw(OtherFeign) => Failure(CustomerServiceUnavailable)
    case Threw(DecoderError(e)) => Failure(e)   // not a FeignException: neither catch clause applies
  }

  /** `customerExistsFallback`: whatever failed, the answer is "service unavailable", never a boolean. */
  function CustomerExistsFallback<X>(customerId: string, ex: X): (r: Result<bool, OrderError>)
    ensures r.Failure? && r.error == CustomerServiceUnavailable
  {
    Failure(CustomerServiceUnavailable)
  }

  /** The exception the client throws for an error status, given the installed decoder. */
  function ThrownForStatus(status: int): (ex: RemoteException)
  {
    match Decode(status)
    case Domain(e) => DecoderError(e)
    case FeignDefault(_) => OtherFeign   // Feign's default builds NotFound only for 404, which never gets here
  }

  /**
    An error status never yields a boolean: 404 becomes "customer not found",
    every other status "service unavailable".
  */
  lemma ErrorStatusClassification(status: int)
    ensures CustomerExists(Threw(ThrownForStatus(status)))
         == Failure(if status == 404 then CustomerNotFound else CustomerServiceUnavailable)
  {
  }

  /** Only a returned body can say "exists"; no thrown exception is ever taken for a yes. */
  lemma NoExistenceFromFailure(call: RemoteCall)
    requires call.Threw?
    ensures CustomerExists(call).Failure?
  {
  }
}
