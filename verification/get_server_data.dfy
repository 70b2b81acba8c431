/**
  `ServerData` as defined in lib/get_server_data.rb: the probe methods
  `get_port_status`, `get_ip`, `get_dns_type` and `ping`, each returning the
  value it stored, and `get_ip` storing `""` when the lookup fails.
 */
module GetServerData {
  import opened RubyValue
  import opened Oracles
  import opened ServerState
  import AddressPattern

  /** `ServerData.to_hostname(input)`: a reverse lookup only for inputs that
      look like a dotted address, and the input itself otherwise or when the
      lookup raises `Resolv::ResolvError`. */
  function ToHostname(input: string, reverse: Lookup): (r: NameStep)
    ensures !AddressPattern.RegexMatches(input) ==> r == NameStep(input, [])
    ensures AddressPattern.RegexMatches(input) ==> r.calls == [ReverseLookup]
    ensures AddressPattern.RegexMatches(input) && reverse.Name? ==> r.name == reverse.name
    ensures reverse.ResolvError? ==> r.name == input
  {
    AddressPattern.AnyLineMatchesIffRegex(input);
    if AddressPattern.AnyLineMatches(input) then
      match reverse
      case Name(n) => NameStep(n, [ReverseLookup])
      case ResolvError => NameStep(input, [ReverseLookup])
    else
      NameStep(input, [])
  }

  /** `get_port_status`: `true` after a completed connect and close; `false`
      when the connect raises one of the three rescued socket errors or the
      timeout expires; any other error propagates with the field untouched. */
  function GetPortStatus(s: ServerData, connect: Connect): (r: Step)
    ensures r.calls == [TcpConnect]
    ensures r.state == s.(portStatus := r.state.portStatus)
    ensures r.completion.Raise? <==> connect.OtherError?
    ensures r.completion.Raise? ==> r.state == s
    ensures r.completion.Return? ==> r.completion.value == r.state.portStatus
    ensures r.completion.Return? ==> IsBoolOrNil(r.state.portStatus) && !r.state.portStatus.Nil?
    ensures r.completion.Return? ==> (Truthy(r.state.portStatus) <==> connect.Connected?)
  {
    match connect
    case Connected =>
      Step(s.(portStatus := True), Return(True), [TcpConnect])
    case Refused | HostUnreach | SocketErr =>
      // rescued inside the timeout block
      Step(s.(portStatus := False), Return(False), [TcpConnect])
    case TimedOut =>
      // Timeout::Error is rescued with an empty body; execution falls
      // through to the final assignment
      Step(s.(portStatus := False), Return(False), [TcpConnect])
    case OtherError =>
      Step(s, Raise, [TcpConnect])
  }

  /** The value `get_ip` stores when the lookup fails. */
  const IpFailure: Value := Str("")

  /** `get_ip`: the resolved address, or `""` on `Resolv::ResolvError`. */
  function GetIp(s: ServerData, lookup: Lookup): (r: Step)
    ensures r.calls == [AddressLookup]
    ensures r.state == s.(ip := r.state.ip)
    ensures r.completion == Return(r.state.ip)
    ensures r.state.ip.Str?
    ensures lookup.Name? ==> r.state.ip.s == lookup.name
    ensures lookup.ResolvError? ==> r.state.ip.s == []
  {
    var v := match lookup
      case Name(a) => Str(a)
      case ResolvError => IpFailure;
    Step(s.(ip := v), Return(v), [AddressLookup])
  }

  /** `get_dns_type`: the CNAME query first; the A query only when the field
      is still `nil` afterwards, which on a re-call keeps any earlier value. */
  function GetDnsType(s: ServerData, cname: Record, a: Record): (r: Step)
    ensures r.state == s.(dnsRecordType := r.state.dnsRecordType)
    ensures r.completion == Return(r.state.dnsRecordType)
    ensures r.calls == if cname.NoRecord? && s.dnsRecordType.Nil? then [CnameQuery, AQuery] else [CnameQuery]
    ensures cname.Present? ==> r.state.dnsRecordType == Str("CNAME")
    ensures s.dnsRecordType.Nil? ==> r.state.dnsRecordType == Classify(cname, a)
    ensures cname.NoRecord? && !s.dnsRecordType.Nil? ==> r.state == s
  {
    var afterCname := if cname.Present? then s.(dnsRecordType := Str("CNAME")) else s;
    if afterCname.dnsRecordType.Nil? then
      var t := afterCname.(dnsRecordType := if a.Present? then Str("A") else False);
      Step(t, Return(t.dnsRecordType), [CnameQuery, AQuery])
    else
      Step(afterCname, Return(afterCname.dnsRecordType), [CnameQuery])
  }

  /** `ping`: `ping.ping` is called once for the `nil` test and, when that
      result is not `nil`, a second time for the value that is stored. Nothing
      is rescued, so an exception from either call propagates with the field
      untouched. */
  function Ping(s: ServerData, first: PingReply, second: PingReply): (r: Step)
    ensures r.state == s.(pingStatus := r.state.pingStatus)
    ensures r.completion.Raise? <==> first.PingError? || (first.Reply? && second.PingError?)
    ensures r.completion.Raise? ==> r.state == s
    ensures r.completion.Return? ==> r.completion.value == r.state.pingStatus
    ensures r.calls == if first.Reply? then [PingProbe, PingProbe] else [PingProbe]
    ensures first.NilReply? ==> r.state.pingStatus == False
    ensures first.Reply? && !second.PingError? ==> r.state.pingStatus == ReplyValue(second)
  {
    match first
    case PingError =>
      Step(s, Raise, [PingProbe])
    case NilReply =>
      Step(s.(pingStatus := False), Return(False), [PingProbe])
    case Reply(_) =>
      if second.PingError? then
        Step(s, Raise, [PingProbe, PingProbe])
      else
        var v := ReplyValue(second);
        Step(s.(pingStatus := v), Return(v), [PingProbe, PingProbe])
  }

  function Apply(s: ServerData, p: Probe): Step {
    match p
    case PortProbe(c) => GetPortStatus(s, c)
    case IpProbe(l) => GetIp(s, l)
    case DnsProbe(c, a) => GetDnsType(s, c, a)
    case PingProbes(f, g) => Ping(s, f, g)
  }

  /** The state after a sequence of probe calls on one object; a call that
      raises leaves the state as it was and the next call goes ahead. */
  function Run(s: ServerData, ps: seq<Probe>): ServerData
    decreases |ps|
  {
    if |ps| == 0 then s else Run(Apply(s, ps[0]).state, ps[1..])
  }

  /** The values the code of this copy can store in the fields. This is wider
      than the `@return` types of the attribute comments: `dns_record_type`
      may be `false` and `ping_status` may be `nil`. */
  predicate StoredValues(s: ServerData) {
    && (s.ip.Nil? || s.ip.Str?)
    && IsRecordTypeOrNil(s.dnsRecordType)
    && IsBoolOrNil(s.portStatus)
    && IsBoolOrNil(s.pingStatus)
  }

  /** Every probe keeps the fields within the stored values and never
      writes `hostname` or `port`. */
  lemma ApplyKeepsStoredValues(s: ServerData, p: Probe)
    requires StoredValues(s)
    ensures StoredValues(Apply(s, p).state)
    ensures Apply(s, p).state.hostname == s.hostname && Apply(s, p).state.port == s.port
  {
  }

  lemma {:induction false} RunKeepsStoredValues(s: ServerData, ps: seq<Probe>)
    requires StoredValues(s)
    ensures StoredValues(Run(s, ps))
    ensures Run(s, ps).hostname == s.hostname && Run(s, ps).port == s.port
    decreases |ps|
  {
    if |ps| > 0 {
      ApplyKeepsStoredValues(s, ps[0]);
      RunKeepsStoredValues(Apply(s, ps[0]).state, ps[1..]);
    }
  }

  /** On any object built by the constructor, every sequence of probes leaves
      the fields within the stored values. */
  lemma ReachableStoredValues(h: string, p: int, ps: seq<Probe>)
    ensures StoredValues(Run(New(h, p), ps))
    ensures Run(New(h, p), ps).hostname == h && Run(New(h, p), ps).port == p
  {
    RunKeepsStoredValues(New(h, p), ps);
  }

  /** `ip` stays `nil` exactly as long as `get_ip` has not been called. */
  lemma {:induction false} IpNilUntilLookedUp(s: ServerData, ps: seq<Probe>)
    requires s.ip.Nil?
    ensures Run(s, ps).ip.Nil? <==> forall i :: 0 <= i < |ps| ==> !ps[i].IpProbe?
    decreases |ps|
  {
    if |ps| > 0 {
      if ps[0].IpProbe? {
        IpNeverNilAgain(Apply(s, ps[0]).state, ps[1..]);
      } else {
        IpNilUntilLookedUp(Apply(s, ps[0]).state, ps[1..]);
        assert forall i :: 1 <= i < |ps| ==> ps[1..][i - 1] == ps[i];
      }
    }
  }

  /** Once `get_ip` has stored something, no probe makes `ip` `nil` again. */
  lemma {:induction false} IpNeverNilAgain(s: ServerData, ps: seq<Probe>)
    requires !s.ip.Nil?
    ensures !Run(s, ps).ip.Nil?
    decreases |ps|
  {
    if |ps| > 0 {
      IpNeverNilAgain(Apply(s, ps[0]).state, ps[1..]);
    }
  }

  /** `dns_record_type` stays `nil` exactly as long as `get_dns_type` has not
      been called; once set it never returns to `nil`. */
  lemma {:induction false} DnsNilUntilClassified(s: ServerData, ps: seq<Probe>)
    requires s.dnsRecordType.Nil?
    ensures Run(s, ps).dnsRecordType.Nil? <==> forall i :: 0 <= i < |ps| ==> !ps[i].DnsProbe?
    decreases |ps|
  {
    if |ps| > 0 {
      if ps[0].DnsProbe? {
        DnsNeverNilAgain(Apply(s, ps[0]).state, ps[1..]);
      } else {
        DnsNilUntilClassified(Apply(s, ps[0]).state, ps[1..]);
        assert forall i :: 1 <= i < |ps| ==> ps[1..][i - 1] == ps[i];
      }
    }
  }

  lemma {:induction false} DnsNeverNilAgain(s: ServerData, ps: seq<Probe>)
    requires !s.dnsRecordType.Nil?
    ensures !Run(s, ps).dnsRecordType.Nil?
    decreases |ps|
  {
    if |ps| > 0 {
      DnsNeverNilAgain(Apply(s, ps[0]).state, ps[1..]);
    }
  }

  /** `to_hostname` accepts strings that are not IPv4 addresses: there is no
      octet range check and the fourth separator is any character. */
  lemma ToHostnameNoOctetCheck()
    ensures ToHostname("999.1.1x1", Name("host")) == NameStep("host", [ReverseLookup])
  {
    var input := "999.1.1x1";
    assert AddressPattern.SplitsAt(input, 3, 5, 7);
    assert input[0..|input|] == input;
    assert AddressPattern.MatchSpan(input, 0, |input|);
  }

  /** `^` and `$` are line anchors: an address on any line triggers the
      reverse lookup. */
  lemma ToHostnameMatchesAnyLine()
    ensures ToHostname("www.example.com\n" + "1.2.3.4", Name("host")).calls == [ReverseLookup]
  {
    var twoLines := "www.example.com\n" + "1.2.3.4";
    assert twoLines[16..23] == "1.2.3.4";
    assert AddressPattern.SplitsAt("1.2.3.4", 1, 3, 5);
    assert AddressPattern.MatchSpan(twoLines, 16, 23);
  }

  /** Three dotted groups are not enough: no lookup, the input comes back. */
  lemma ToHostnameThreeGroups()
    ensures ToHostname("1.2.3", Name("host")) == NameStep("1.2.3", [])
  {
    AddressPattern.AnyLineMatchesIffRegex("1.2.3");
  }

  /** The CNAME-first short-circuit: when the CNAME query answers, the A
      query is not issued, so its outcome cannot matter. */
  lemma CnameShortCircuits(s: ServerData, a1: Record, a2: Record)
    ensures AQuery !in GetDnsType(s, Present, a1).calls
    ensures GetDnsType(s, Present, a1) == GetDnsType(s, Present, a2)
  {
  }

  /** A re-call whose CNAME query fails keeps whatever an earlier call stored,
      without issuing the A query. */
  lemma DnsTypeIsSticky(s: ServerData, a: Record)
    requires !s.dnsRecordType.Nil?
    ensures GetDnsType(s, NoRecord, a) == Step(s, Return(s.dnsRecordType), [CnameQuery])
  {
  }

  /** Calling a probe twice against an unchanged environment leaves the state
      the first call produced. */
  lemma ProbeIdempotent(s: ServerData, p: Probe)
    ensures Apply(Apply(s, p).state, p).state == Apply(s, p).state
  {
  }

  /** Probes of different fields commute. */
  lemma ProbesCommute(s: ServerData, p: Probe, q: Probe)
    requires !SameField(p, q)
    ensures Apply(Apply(s, p).state, q).state == Apply(Apply(s, q).state, p).state
  {
  }

  /** The stale value: after a call that found no record, a later call keeps
      `false` even though an A record now answers. */
  lemma StaleFalseHidesARecord(h: string)
    ensures GetDnsType(New(h), NoRecord, NoRecord).state.dnsRecordType == False
    ensures GetDnsType(GetDnsType(New(h), NoRecord, NoRecord).state, NoRecord, Present).state.dnsRecordType == False
    ensures Classify(NoRecord, Present) == Str("A")
  {
  }

  /** `ping` can store `nil` although it tests the first reply for `nil`:
      the stored value comes from the second probe. */
  lemma PingCanStoreNil(h: string)
    ensures Ping(New(h), Reply(true), NilReply).state.pingStatus == Nil
    ensures Ping(New(h), Reply(true), NilReply).calls == [PingProbe, PingProbe]
  {
  }
}
