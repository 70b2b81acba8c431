/**
  The outcomes of the foreign calls `ServerData` makes. The network work of
  Resolv, Resolv::DNS, TCPSocket and Net::Ping::External is not modelled;
  each transition takes the outcome of each call it may make as a parameter.
 */
module Oracles {
  import opened RubyValue

  /** `Resolv.getname` / `Resolv.getaddress`: a name or address, or a raised
      `Resolv::ResolvError`. */
  datatype Lookup = Name(name: string) | ResolvError

  /** `TCPSocket.new(host, port)` followed by `close`, inside
      `Timeout::timeout`. `Connected` means connect and close both completed;
      `TimedOut` is the expiry of the timeout block; `OtherError` is any
      exception outside the classes the method rescues (for example
      `Errno::ETIMEDOUT` or `Errno::ENETUNREACH`). */
  datatype Connect = Connected | Refused | HostUnreach | SocketErr | TimedOut | OtherError

  /** `resolver.getresource(host, type)`: the record exists, or the call
      raises `Resolv::ResolvError`. */
  datatype Record = Present | NoRecord

  /** One call of `ping.ping`: `true`, `false` or `nil`, or an exception
      the probe methods do not rescue. */
  datatype PingReply = Reply(ok: bool) | NilReply | PingError

  /** The Ruby value a reply that did not raise is. */
  function ReplyValue(p: PingReply): (v: Value)
    requires !p.PingError?
    ensures IsBoolOrNil(v)
    ensures v.Nil? <==> p.NilReply?
    ensures Truthy(v) <==> p == Reply(true)
  {
    match p
    case Reply(ok) => if ok then True else False
    case NilReply => Nil
  }

  /** The foreign calls, in the order a transition issues them. */
  datatype Query = ReverseLookup | AddressLookup | TcpConnect | CnameQuery | AQuery | PingProbe
}
