/** `getRequestIp`: the client address printed in the summary line. */
module ClientAddress {
  import opened Wrappers

  /** The proxy header that carries the external client address. */
  const ForwardedHeader: string := "x-envoy-external-address"
  const FallbackAddress: string := "0.0.0.0"

  /**
   * The header if the request carries it (even when empty: `??` only skips
   * missing values), otherwise the transport address if known, otherwise
   * "0.0.0.0". The header is trusted as it is, without validation.
   */
  function RequestIp(headers: map<string, string>, ip: Option<string>): (address: string)
    ensures ForwardedHeader in headers ==> address == headers[ForwardedHeader]
    ensures ForwardedHeader !in headers && ip.Some? ==> address == ip.value
    ensures ForwardedHeader !in headers && ip.None? ==> address == FallbackAddress
  {
    Lookup(headers, ForwardedHeader).GetOr(ip.GetOr(FallbackAddress))
  }
}
