/** The HTTP status codes the client tests, from RFC 9110 section 15. */
module StatusCodes {
  const Ok := 200                   // section 15.3.1
  const Forbidden := 403            // section 15.5.4
  const NotFound := 404             // section 15.5.5
  const RequestTimeout := 408       // section 15.5.9
  const ExpectationFailed := 417    // section 15.5.18
  const InternalServerError := 500  // section 15.6.1
  const BadGateway := 502           // section 15.6.3
  const ServiceUnavailable := 503   // section 15.6.4
  const GatewayTimeout := 504       // section 15.6.5
}
