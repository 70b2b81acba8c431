/**
  `ServerData` as defined in lib/gsd.rb, the copy the test suite loads. Its
  probe methods are `port_status!`, `ip!`, `dns_record_type!` and
  `ping_status!`. The transitions on the fields match lib/get_server_data.rb
  except that `ip!` stores `false`, not `""`, when the lookup fails; and the
  return value of `dns_record_type!` is `nil` whenever the A query is skipped,
  because the method ends with an `if` that has no `else` branch.
 */
module Gsd {
  import opened RubyValue
  import opened Oracles
  import opened ServerState
  import AddressPattern
  import GetServerData

  /** The constructor is the same as in lib/get_server_data.rb. */
  lemma Constructor(h: string, p: int)
    ensures New(h, p).hostname == h && New(h, p).port == p
    ensures New(h).port == 22
    ensures New(h, p).ip.Nil? && New(h, p).dnsRecordType.Nil? && New(h, p).portStatus.Nil? && New(h, p).pingStatus.Nil?
  {
  }

  /** `ServerData.to_hostname(input)`, textually the same as in
      lib/get_server_data.rb. */
  function ToHostname(input: string, reverse: Lookup): (r: NameStep)
    ensures !AddressPattern.RegexMatches(input) ==> r == NameStep(input, [])
    ensures AddressPattern.RegexMatches(input) ==> r.calls == [ReverseLookup]
    ensures AddressPattern.RegexMatches(input) && reverse.Name? ==> r.name == reverse.name
    ensures reverse.ResolvError? ==> r.name == input
  {
    GetServerData.ToHostname(input, reverse)
  }

  /** `port_status!`, which behaves as `get_port_status`: `true` after a
      completed connect and close; `false` on the three rescued socket errors
      and on timeout; any other error propagates with the field untouched. */
  function ProbePortStatus(s: ServerData, connect: Connect): (r: Step)
    ensures r.calls == [TcpConnect]
    ensures r.state == s.(portStatus := r.state.portStatus)
    ensures r.completion.Raise? <==> connect.OtherError?
    ensures r.completion.Raise? ==> r.state == s
    ensures r.completion.Return? ==> r.completion.value == r.state.portStatus
    ensures r.completion.Return? ==> IsBoolOrNil(r.state.portStatus) && !r.state.portStatus.Nil?
    ensures r.completion.Return? ==> (Truthy(r.state.portStatus) <==> connect.Connected?)
  {
    GetServerData.GetPortStatus(s, connect)
  }

  /** `ip!`: the resolved address, or `false` on `Resolv::ResolvError`; the
      method's value is that of the assignment. */
  function ProbeIp(s: ServerData, lookup: Lookup): (r: Step)
    ensures r.calls == [AddressLookup]
    ensures r.state == s.(ip := r.state.ip)
    ensures r.completion == Return(r.state.ip)
    ensures Truthy(r.state.ip) <==> lookup.Name?
    ensures lookup.Name? ==> r.state.ip == Str(lookup.name)
    ensures lookup.ResolvError? ==> r.state.ip.False?
  {
    var v := match lookup
      case Name(a) => Str(a)
      case ResolvError => False;
    Step(s.(ip := v), Return(v), [AddressLookup])
  }

  /** `dns_record_type!`: the same decision as `get_dns_type`, but the
      method's value is that of its final `if`, which is `nil` when the field
      was already set after the CNAME query. */
  function ProbeDnsRecordType(s: ServerData, cname: Record, a: Record): (r: Step)
    ensures r.state == s.(dnsRecordType := r.state.dnsRecordType)
    ensures r.calls == if cname.NoRecord? && s.dnsRecordType.Nil? then [CnameQuery, AQuery] else [CnameQuery]
    ensures AQuery in r.calls ==> r.completion == Return(r.state.dnsRecordType)
    ensures AQuery !in r.calls ==> r.completion == Return(Nil)
    ensures cname.Present? ==> r.state.dnsRecordType == Str("CNAME")
    ensures s.dnsRecordType.Nil? ==> r.state.dnsRecordType == Classify(cname, a)
    ensures cname.NoRecord? && !s.dnsRecordType.Nil? ==> r.state == s
  {
    var afterCname := if cname.Present? then s.(dnsRecordType := Str("CNAME")) else s;
    if afterCname.dnsRecordType.Nil? then
      var v := if a.Present? then Str("A") else False;
      Step(afterCname.(dnsRecordType := v), Return(v), [CnameQuery, AQuery])
    else
      Step(afterCname, Return(Nil), [CnameQuery])
  }

  /** `ping_status!`, which behaves as `ping`: the two-call rule, with
      nothing rescued; the method's value is that of the assignment. */
  function ProbePingStatus(s: ServerData, first: PingReply, second: PingReply): (r: Step)
    ensures r.state == s.(pingStatus := r.state.pingStatus)
    ensures r.completion.Raise? <==> first.PingError? || (first.Reply? && second.PingError?)
    ensures r.completion.Raise? ==> r.state == s
    ensures r.completion.Return? ==> r.completion.value == r.state.pingStatus
    ensures r.calls == if first.Reply? then [PingProbe, PingProbe] else [PingProbe]
    ensures first.NilReply? ==> r.state.pingStatus == False
    ensures first.Reply? && !second.PingError? ==> r.state.pingStatus == ReplyValue(second)
  {
    GetServerData.Ping(s, first, second)
  }

  function Apply(s: ServerData, p: Probe): Step {
    match p
    case PortProbe(c) => ProbePortStatus(s, c)
    case IpProbe(l) => ProbeIp(s, l)
    case DnsProbe(c, a) => ProbeDnsRecordType(s, c, a)
    case PingProbes(f, g) => ProbePingStatus(s, f, g)
  }

  /** The state after a sequence of probe calls; a call that raises leaves
      the state as it was. */
  function Run(s: ServerData, ps: seq<Probe>): ServerData
    decreases |ps|
  {
    if |ps| == 0 then s else Run(Apply(s, ps[0]).state, ps[1..])
  }

  /** The values the code of this copy can store in the fields: `ip` may
      also be `false`. */
  predicate StoredValues(s: ServerData) {
    && (s.ip.Nil? || s.ip.False? || s.ip.Str?)
    && IsRecordTypeOrNil(s.dnsRecordType)
    && IsBoolOrNil(s.portStatus)
    && IsBoolOrNil(s.pingStatus)
  }

  /** An object of this copy and one of the other copy that differ at most in
      the failure sentinel of `ip`. */
  predicate Corresponds(g: ServerData, o: ServerData) {
    && g == o.(ip := g.ip)
    && (g.ip == o.ip || (g.ip.False? && o.ip == GetServerData.IpFailure))
  }

  /** One probe on corresponding objects: the same foreign calls, corresponding
      states, and the same completion except for the two known
      differences. */
  lemma ApplyCorresponds(g: ServerData, o: ServerData, p: Probe)
    requires Corresponds(g, o)
    ensures Corresponds(Apply(g, p).state, GetServerData.Apply(o, p).state)
    ensures Apply(g, p).calls == GetServerData.Apply(o, p).calls
    ensures !p.IpProbe? && !p.DnsProbe? ==> Apply(g, p).completion == GetServerData.Apply(o, p).completion
    ensures p.DnsProbe? && AQuery in Apply(g, p).calls ==> Apply(g, p).completion == GetServerData.Apply(o, p).completion
  {
  }

  /** The two copies drive the same sequence of probes through corresponding
      states. */
  lemma {:induction false} RunCorresponds(g: ServerData, o: ServerData, ps: seq<Probe>)
    requires Corresponds(g, o)
    ensures Corresponds(Run(g, ps), GetServerData.Run(o, ps))
    decreases |ps|
  {
    if |ps| > 0 {
      ApplyCorresponds(g, o, ps[0]);
      RunCorresponds(Apply(g, ps[0]).state, GetServerData.Apply(o, ps[0]).state, ps[1..]);
    }
  }

  /** On any object built by the constructor, every sequence of probes leaves
      the fields within this copy's types and `hostname` and `port` as given. */
  lemma ReachableStoredValues(h: string, p: int, ps: seq<Probe>)
    ensures StoredValues(Run(New(h, p), ps))
    ensures Run(New(h, p), ps).hostname == h && Run(New(h, p), ps).port == p
  {
    RunCorresponds(New(h, p), New(h, p), ps);
    GetServerData.ReachableStoredValues(h, p, ps);
  }

  /** Where the copies disagree on `ip`: this copy's failure value is falsy,
      the other copy's `""` is truthy in Ruby. */
  lemma IpSentinelsDiffer(s: ServerData)
    ensures ProbeIp(s, ResolvError).state.ip == False && !Truthy(ProbeIp(s, ResolvError).state.ip)
    ensures GetServerData.GetIp(s, ResolvError).state.ip == Str("") && Truthy(GetServerData.GetIp(s, ResolvError).state.ip)
  {
  }

  /** `dns_record_type!` on a re-call against an unchanged environment stores
      the same value but returns `nil` where the first call returned `'A'`. */
  lemma DnsReturnNotRepeatable(h: string)
    ensures ProbeDnsRecordType(New(h), NoRecord, Present).completion == Return(Str("A"))
    ensures ProbeDnsRecordType(ProbeDnsRecordType(New(h), NoRecord, Present).state, NoRecord, Present).completion == Return(Nil)
    ensures ProbeDnsRecordType(ProbeDnsRecordType(New(h), NoRecord, Present).state, NoRecord, Present).state
         == ProbeDnsRecordType(New(h), NoRecord, Present).state
  {
  }

  /** The CNAME path returns `nil` while storing `'CNAME'`. */
  lemma CnamePathReturnsNil(s: ServerData, a: Record)
    ensures ProbeDnsRecordType(s, Present, a).state.dnsRecordType == Str("CNAME")
    ensures ProbeDnsRecordType(s, Present, a).completion == Return(Nil)
  {
  }

  /** test_constructor: fields start `nil`, the port defaults to 22. */
  lemma TestConstructorAssertions()
    ensures New("foohost.spmalloy.com").hostname == "foohost.spmalloy.com"
    ensures New("foohost.spmalloy.com").port == 22
    ensures New("foohost.spmalloy.com").dnsRecordType.Nil?
    ensures New("foohost.spmalloy.com").ip.Nil?
    ensures New("foohost.spmalloy.com").portStatus.Nil?
    ensures New("foohost.spmalloy.com", 80).port == 80
  {
  }

  /** test_method_port_status: an open port is truthy; a refused connect and
      an unknown host (a SocketError from the name lookup) are falsy. */
  lemma TestPortStatusAssertions(h: string, p: int)
    ensures Truthy(ProbePortStatus(New(h, p), Connected).state.portStatus)
    ensures !Truthy(ProbePortStatus(New(h, p), Refused).state.portStatus)
    ensures !Truthy(ProbePortStatus(New(h, p), SocketErr).state.portStatus)
  {
  }

  /** test_method_ip: an unknown host leaves a falsy `ip`, a known one a
      non-`nil` one. The first assertion holds only for this copy. */
  lemma TestIpAssertions(h: string, address: string)
    ensures !Truthy(ProbeIp(New(h), ResolvError).state.ip)
    ensures Truthy(GetServerData.GetIp(New(h), ResolvError).state.ip)
    ensures !ProbeIp(New(h, 80), Name(address)).state.ip.Nil?
  {
  }

  /** test_method_dns_record_type on fresh objects. */
  lemma TestDnsRecordTypeAssertions(h: string, p: int)
    ensures !Truthy(ProbeDnsRecordType(New(h), NoRecord, NoRecord).state.dnsRecordType)
    ensures ProbeDnsRecordType(New(h, p), NoRecord, Present).state.dnsRecordType == Str("A")
    ensures ProbeDnsRecordType(New(h, p), Present, NoRecord).state.dnsRecordType == Str("CNAME")
  {
  }
}
