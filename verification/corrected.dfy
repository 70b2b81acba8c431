/**
  The evidently intended behaviour of two probe methods whose code, as
  written, departs from it:
  - the record-type probe should classify afresh on every call, instead of
    keeping a value an earlier call stored whenever the CNAME query fails;
  - the ping probe should store the reply it checked for `nil`, instead of
    the reply of a second, separate probe.
 */
module Corrected {
  import opened RubyValue
  import opened Oracles
  import opened ServerState
  import GetServerData

  /** Record type by the CNAME-first decision, independent of the prior
      value of the field. */
  function GetDnsType(s: ServerData, cname: Record, a: Record): (r: Step)
    ensures r.state == s.(dnsRecordType := r.state.dnsRecordType)
    ensures r.completion == Return(r.state.dnsRecordType)
    ensures r.calls == if cname.Present? then [CnameQuery] else [CnameQuery, AQuery]
    ensures r.state.dnsRecordType == Classify(cname, a)
    ensures !r.state.dnsRecordType.Nil? && IsRecordTypeOrNil(r.state.dnsRecordType)
    ensures r.state.dnsRecordType == Str("A") <==> cname.NoRecord? && a.Present?
  {
    var t := s.(dnsRecordType := Classify(cname, a));
    Step(t, Return(t.dnsRecordType), if cname.Present? then [CnameQuery] else [CnameQuery, AQuery])
  }

  /** The stored record type reflects only the latest call. */
  lemma DnsTypeForgetsPrior(s1: ServerData, s2: ServerData, cname: Record, a: Record)
    requires s1 == s2.(dnsRecordType := s1.dnsRecordType)
    ensures GetDnsType(s1, cname, a) == GetDnsType(s2, cname, a)
  {
  }

  /** On an object whose field is still `nil`, the code as written already
      behaves as intended. */
  lemma DnsTypeAgreesOnFreshField(s: ServerData, cname: Record, a: Record)
    requires s.dnsRecordType.Nil?
    ensures GetDnsType(s, cname, a) == GetServerData.GetDnsType(s, cname, a)
  {
  }

  /** One probe; a `nil` reply is stored as `false`. An exception from the
      probe still propagates with the field untouched. */
  function Ping(s: ServerData, reply: PingReply): (r: Step)
    ensures r.calls == [PingProbe]
    ensures r.state == s.(pingStatus := r.state.pingStatus)
    ensures r.completion.Raise? <==> reply.PingError?
    ensures r.completion.Raise? ==> r.state == s
    ensures r.completion.Return? ==> r.completion.value == r.state.pingStatus
    ensures r.completion.Return? ==> r.state.pingStatus.True? || r.state.pingStatus.False?
    ensures Truthy(r.state.pingStatus) <==> reply == Reply(true) || (reply.PingError? && Truthy(s.pingStatus))
  {
    if reply.PingError? then
      Step(s, Raise, [PingProbe])
    else
      var v := if reply.NilReply? then False else ReplyValue(reply);
      Step(s.(pingStatus := v), Return(v), [PingProbe])
  }

  /** When both probes of the code as written get the same reply, it stores
      what the single probe stores and completes the same way. */
  lemma PingAgreesOnStableReplies(s: ServerData, reply: PingReply)
    ensures Ping(s, reply).state == GetServerData.Ping(s, reply, reply).state
    ensures Ping(s, reply).completion == GetServerData.Ping(s, reply, reply).completion
  {
  }
}
