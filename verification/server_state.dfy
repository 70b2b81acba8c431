/**
  The state of one `ServerData` object and the shape of its transitions.

  `hostname` and `port` are set by the constructor and never written again;
  the four result fields start as `nil` and are written only by their own
  probe method. A probe method is modelled as a pure function from the
  current state and the outcomes of its foreign calls to a `Step`: the new
  state, whether the method returned (and what) or raised, and the foreign
  calls it issued, in order.
 */
module ServerState {
  import opened RubyValue
  import opened Oracles

  datatype ServerData = ServerData(
    hostname: string,
    port: int,
    ip: Value,
    dnsRecordType: Value,
    portStatus: Value,
    pingStatus: Value)

  /** `ServerData.new(h, p = 22)`. */
  function New(h: string, p: int := 22): (s: ServerData)
    ensures s.hostname == h && s.port == p
    ensures !Truthy(s.ip) && !Truthy(s.dnsRecordType) && !Truthy(s.portStatus) && !Truthy(s.pingStatus)
    ensures s.ip.Nil? && s.dnsRecordType.Nil? && s.portStatus.Nil? && s.pingStatus.Nil?
  {
    ServerData(h, p, Nil, Nil, Nil, Nil)
  }

  /** How a method call ends: it returns a Ruby value, or an exception
      propagates out of it. */
  datatype Completion = Return(value: Value) | Raise

  datatype Step = Step(state: ServerData, completion: Completion, calls: seq<Query>)

  /** The result of the class method `to_hostname`, which touches no object. */
  datatype NameStep = NameStep(name: string, calls: seq<Query>)

  /** One invocation of a probe method, with the outcomes of the foreign
      calls it may make. */
  datatype Probe =
    | PortProbe(connect: Connect)
    | IpProbe(lookup: Lookup)
    | DnsProbe(cname: Record, a: Record)
    | PingProbes(first: PingReply, second: PingReply)

  /** Two probes write the same result field. */
  predicate SameField(p: Probe, q: Probe) {
    p.PortProbe? == q.PortProbe? && p.IpProbe? == q.IpProbe? && p.DnsProbe? == q.DnsProbe?
  }

  /** The CNAME-first decision tree on an object whose `dns_record_type` is
      still `nil`: `'CNAME'` when the CNAME query answers, else `'A'` when the
      A query answers, else `false`. */
  function Classify(cname: Record, a: Record): (v: Value)
    ensures IsRecordTypeOrNil(v) && !v.Nil?
    ensures v == Str("CNAME") <==> cname == Present
    ensures v == Str("A") <==> cname.NoRecord? && a.Present?
    ensures v == False <==> cname.NoRecord? && a.NoRecord?
  {
    if cname == Present then Str("CNAME")
    else if a == Present then Str("A")
    else False
  }
}
