/** The error decoder installed on the customer-service client: HTTP status -> exception. */
module FeignErrorDecoder {
  import opened OrderErrors

  /** One of the two domain exceptions, or whatever Feign's own default decoder builds for the status. */
  datatype DecodedException = Domain(error: OrderError) | FeignDefault(status: int)

  predicate IsGatewayFailure(status: int) { status == 502 || status == 503 || status == 504 }

  /** `decode`: 404 is "customer not found", 502/503/504 "service unavailable", the rest is Feign's. */
  function Decode(status: int): (e: DecodedException)
    ensures e == Domain(CustomerNotFound) <==> status == 404
    ensures e == Domain(CustomerServiceUnavailable) <==> IsGatewayFailure(status)
    ensures e.Domain? <==> status == 404 || IsGatewayFailure(status)
    ensures e.FeignDefault? ==> e.status == status
  {
    if status == 404 then Domain(CustomerNotFound)
    else if IsGatewayFailure(status) then Domain(CustomerServiceUnavailable)
    else FeignDefault(status)
  }
}
