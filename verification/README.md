# ServerData probe state machine

A Dafny model of `ServerData`, the host prober of the get-server-data Ruby
library. A `ServerData` object holds a target (`hostname`, `port`, the port
defaulting to 22) and four result fields: `ip`, `dns_record_type`,
`port_status` and `ping_status`. Each field is `nil` until its probe method
runs. The library ships the class twice:

- lib/get_server_data.rb has `get_port_status`, `get_ip`, `get_dns_type`
  and `ping`;
- lib/gsd.rb is the copy the tests load. It has `port_status!`, `ip!`,
  `dns_record_type!` and `ping_status!`.

Both copies have the class method `to_hostname`.

The object is an immutable record (`ServerState.ServerData`). Each probe
method is a pure function. It takes the current record and the outcome of
every foreign call it may make, and returns a `Step`, which holds:

- the new record;
- whether the method returned a Ruby value or raised;
- the foreign calls it issued, in order.

The call list makes "the A query is never issued" and "ping is called
twice" statements about the model.

Files:

- `ruby_value.dfy` (`RubyValue`) defines Ruby values (`nil`, `false`,
  `true`, strings) and Ruby truthiness. Under truthiness `""` counts as true.
- `oracles.dfy` (`Oracles`) defines the outcomes of the foreign calls:
  - a lookup gives `Name(s)` or `ResolvError`;
  - a connect gives `Connected`, `Refused`, `HostUnreach`, `SocketErr`,
    `TimedOut` or `OtherError`;
  - a record query gives `Present` or `NoRecord`;
  - a ping reply is `true`, `false` or `nil`, or `PingError` when the call
    raises.
- `server_state.dfy` (`ServerState`) holds the record, the constructor,
  `Step`, and the CNAME-first decision `Classify`.
- `address_pattern.dfy` (`AddressPattern`) models the regular expression
  `/^\d+\.\d+\.\d+.\d+$/` with Ruby's line anchors. `RegexMatches` is the
  declarative reading: some span bounded by `^` and `$` splits into the
  pattern's pieces. `AnyLineMatches` is a line-by-line scanner. A lemma proves
  the two equivalent.
- `get_server_data.dfy` (`GetServerData`) and `gsd.dfy` (`Gsd`) model the two
  copies. `Gsd` also proves that the two copies run in lock-step and differ
  only in the `ip` failure sentinel and in what `dns_record_type!` returns.
- `corrected.dfy` (`Corrected`) holds the intended behaviour for the two
  findings below.

## Where the code and its doc comments differ

The YARD comments of lib/get_server_data.rb (the attribute types at lines
47-69 and the method comments at lines 87-90, 107-109, 119-121 and 144-147)
do not describe the following. The model follows the code in each case:

- An error from the connect outside ECONNREFUSED, EHOSTUNREACH, SocketError
  and `Timeout::Error` is not turned into `false`. It propagates out of the
  probe and leaves `port_status` unchanged (`Completion.Raise`).
- The ping helper is called twice unless the first reply is `nil`. The value
  stored comes from the second call and may be `nil`. Nothing is rescued, so
  an exception from either call propagates and leaves `ping_status`
  unchanged.
- A failed address lookup stores `""` in one copy and `false` in the other.
  Both differ from the `nil` of a copy whose lookup never ran
  (`IpNilUntilLookedUp`). But `""` is a String, like a real address, and is
  truthy. `false` is falsy, like the unprobed `nil`, so a truthiness test
  such as the `refute` of test_method_ip cannot tell the two apart.
- `dns_record_type` does not always reflect the latest call. After the first
  call, a failed CNAME query keeps the earlier value.
- The fields hold values outside their documented `@return` types.
  `dns_record_type` is documented as the String "A" or "CNAME" but stores
  `false` when neither record answers (lib/get_server_data.rb:136).
  `ping_status` is documented as Boolean but can store `nil`
  (lib/get_server_data.rb:153). `StoredValues` states what the code can
  store. lib/gsd.rb has no type comments.

## Model

| member | source | states |
|---|---|---|
| ServerState.New | lib/get_server_data.rb:38-45 | A new object has the given hostname, and the port given or 22. All four result fields are `nil`, hence falsy. |
| ServerState.Classify | lib/get_server_data.rb:124-140 | Reference for the CNAME-first decision on a `nil` field: `'CNAME'` iff the CNAME query answers; `'A'` iff only the A query answers; `false` iff neither answers. Never `nil`. |
| AddressPattern.LineMatchesIff | lib/get_server_data.rb:76 | The single-line scanner accepts a line iff it splits as digits, `.`, digits, `.`, digits, any non-newline char, digits. |
| AddressPattern.AnyLineMatchesIffRegex | lib/get_server_data.rb:76 | The scanner accepts a string iff some span from a line start (`^`) to a line end (`$`) matches the pattern, as Ruby's `=~` does. |
| AddressPattern.AnyLineMatchesSpan | lib/get_server_data.rb:76 | A string the scanner accepts has a matching span that starts and ends on line boundaries. |
| AddressPattern.LaterLineSpan | lib/get_server_data.rb:76 | A match the scanner finds after a newline is a line-bounded matching span of the whole input. |
| AddressPattern.RegexMatchesAnyLine | lib/get_server_data.rb:76 | A matching span on line boundaries makes the scanner accept. |
| AddressPattern.FullMatchHasNoNewline | lib/get_server_data.rb:76 | A match never crosses a newline, because `\d`, `\.` and `.` all exclude it. |
| GetServerData.ToHostname | lib/get_server_data.rb:75-85 | If no line matches the pattern, it returns the input and makes no lookup. If a line matches, it makes exactly one reverse lookup and returns that lookup's name. On ResolvError it returns the input. |
| GetServerData.ToHostnameNoOctetCheck | lib/get_server_data.rb:76 | `999.1.1x1` triggers a reverse lookup: octets are not range-checked, and the fourth separator can be any character. |
| GetServerData.ToHostnameMatchesAnyLine | lib/get_server_data.rb:76 | An address on the second line of a multi-line input triggers the reverse lookup. |
| GetServerData.ToHostnameThreeGroups | lib/get_server_data.rb:82-84 | `1.2.3` is returned unchanged, with no lookup. |
| GetServerData.GetPortStatus | lib/get_server_data.rb:91-105 | Makes one connect and writes only `port_status`. Raises iff the connect error is outside the rescued classes, and then the state is unchanged. Otherwise it returns the stored Boolean, which is true iff connect and close completed. |
| GetServerData.GetIp | lib/get_server_data.rb:110-117 | Makes one lookup and writes only `ip`. Stores the address, or `""` on ResolvError. Returns the stored value. |
| GetServerData.GetDnsType | lib/get_server_data.rb:122-141 | Writes only `dns_record_type` and returns it. The queries are exactly CNAME then A when CNAME fails and the field is `nil`, and CNAME alone otherwise. On a `nil` field the result is `Classify`. When the field was set and CNAME fails, nothing changes. |
| GetServerData.Ping | lib/get_server_data.rb:148-156 | Writes only `ping_status` and returns it. A `nil` first reply stores `false` after one probe. Otherwise a second probe is made and its reply (`true`, `false` or `nil`) is stored. It raises iff a probe that ran raised, and then the state is unchanged. |
| GetServerData.ApplyKeepsStoredValues | lib/get_server_data.rb:91-156 | Every probe keeps the stored-value invariant and leaves hostname and port unchanged. The invariant is: `ip` is `nil` or a String; `dns_record_type` is `nil`, `false`, `'A'` or `'CNAME'`; both statuses are `nil`, `true` or `false`. |
| GetServerData.RunKeepsStoredValues | lib/get_server_data.rb:91-156 | The same holds for any sequence of probes, raising ones included. |
| GetServerData.ReachableStoredValues | lib/get_server_data.rb:38-156 | Any object built by the constructor, after any probes, satisfies the stored-value invariant and keeps its original hostname and port. |
| GetServerData.IpNilUntilLookedUp | lib/get_server_data.rb:110-117 | Starting from `nil`, `ip` is `nil` after a probe sequence iff the sequence has no `get_ip`. |
| GetServerData.IpNeverNilAgain | lib/get_server_data.rb:110-117 | Once `ip` is set, no probe sequence makes it `nil` again. |
| GetServerData.DnsNilUntilClassified | lib/get_server_data.rb:122-141 | Starting from `nil`, `dns_record_type` is `nil` after a probe sequence iff the sequence has no `get_dns_type`. |
| GetServerData.DnsNeverNilAgain | lib/get_server_data.rb:122-141 | Once `dns_record_type` is set, no probe sequence makes it `nil` again. |
| GetServerData.CnameShortCircuits | lib/get_server_data.rb:124-134 | When the CNAME query answers, no A query is issued, and the A outcome does not affect the result. |
| GetServerData.DnsTypeIsSticky | lib/get_server_data.rb:132 | When the field is set and the CNAME query fails, the call issues only the CNAME query, keeps the state, and returns the prior value. |
| GetServerData.ProbeIdempotent | lib/get_server_data.rb:91-156 | Repeating any probe against the same outcomes leaves the state from the first call. |
| GetServerData.ProbesCommute | lib/get_server_data.rb:91-156 | Two probes that write different fields commute. |
| GetServerData.StaleFalseHidesARecord | lib/get_server_data.rb:132-140 | After a call that found no record, a later call keeps `false` even when an A record answers. The decision tree gives `'A'` for that call. |
| GetServerData.PingCanStoreNil | lib/get_server_data.rb:150-153 | First reply `true` and second reply `nil` store `nil` after two probes. |
| Gsd.Constructor | lib/gsd.rb:33-40 | Same constructor: hostname and port as given, port 22 by default, and all result fields `nil`. |
| Gsd.ToHostname | lib/gsd.rb:50-60 | Same contract as `GetServerData.ToHostname`. |
| Gsd.ProbePortStatus | lib/gsd.rb:62-79 | Same contract as `GetPortStatus`: true iff connect and close completed; `false` on the three rescued errors and on timeout; unrescued errors raise with the state unchanged. |
| Gsd.ProbeIp | lib/gsd.rb:81-87 | Writes only `ip` and returns the stored value. The value is truthy iff the lookup succeeded, because failure stores `false`. |
| Gsd.ProbeDnsRecordType | lib/gsd.rb:89-108 | Same state transition and exact query sequence as `get_dns_type`. It returns the stored value only when the A query ran. Otherwise it returns `nil`, which includes the CNAME path. |
| Gsd.ProbePingStatus | lib/gsd.rb:110-117 | Same two-probe rule as `ping`, and returns the stored value. An exception from a probe propagates with the state unchanged. |
| Gsd.ApplyCorresponds | lib/gsd.rb:62-117 | On objects that differ only in the `ip` sentinel, both copies issue the same calls and reach corresponding states. Completions agree except for `ip!` and a `dns_record_type!` that skipped the A query. |
| Gsd.RunCorresponds | lib/gsd.rb:62-117 | The correspondence holds along any sequence of probes. |
| Gsd.ReachableStoredValues | lib/gsd.rb:33-117 | Every reachable object satisfies this copy's stored-value invariant, where `ip` may also be `false`, and keeps its original hostname and port. |
| Gsd.IpSentinelsDiffer | lib/gsd.rb:84-85 | On ResolvError this copy stores a falsy `false`. The other copy stores `""`, which Ruby treats as truthy. |
| Gsd.DnsReturnNotRepeatable | lib/gsd.rb:99-107 | A second call against the same A-only answers stores the same value. The first call returns `'A'`; the second returns `nil`. |
| Gsd.CnamePathReturnsNil | lib/gsd.rb:96-107 | On the CNAME path the method stores `'CNAME'` and returns `nil`. |
| Gsd.TestConstructorAssertions | test/gsd_test.rb:36-45 | The constructor assertions of test_constructor hold. |
| Gsd.TestPortStatusAssertions | test/gsd_test.rb:47-61 | An open port is truthy. A refused port is falsy. A nonexistent host, which gives a SocketError, is falsy. |
| Gsd.TestIpAssertions | test/gsd_test.rb:63-71 | On an unknown host `ip` is falsy in this copy, but would be truthy in the other. A resolved `ip` is non-`nil`. |
| Gsd.TestDnsRecordTypeAssertions | test/gsd_test.rb:74-88 | A fresh object gives falsy with no records, `'A'` with only an A record, and `'CNAME'` when CNAME answers. |
| Corrected.GetDnsType | lib/get_server_data.rb:122-141 | Intended classification: the stored and returned value is `Classify` of the two answers, whatever the prior value. The queries are CNAME alone when it answers, else CNAME then A. The value is never `nil` and is `'A'` iff only A answers. |
| Corrected.DnsTypeForgetsPrior | lib/get_server_data.rb:132 | The corrected result does not depend on the field's prior value. |
| Corrected.DnsTypeAgreesOnFreshField | lib/get_server_data.rb:122-141 | On a `nil` field, the corrected and as-written probes produce the same step. |
| Corrected.Ping | lib/get_server_data.rb:148-156 | Intended ping: exactly one probe. Unless that probe raises, which leaves the state unchanged, the stored status is `true` or `false` and is truthy iff the reply is `true`. |
| Corrected.PingAgreesOnStableReplies | lib/get_server_data.rb:148-156 | When both as-written replies are equal, the state and the completion equal the corrected ones. |

## Findings

| source | as written | input that shows it | evidently intended | confidence | as-written member | corrected member |
|---|---|---|---|---|---|---|
| lib/get_server_data.rb:132 | The A query runs only while `dns_record_type` is `nil`. On a re-call with a failing CNAME query, it keeps the earlier value. | First call: no CNAME, no A, so it stores `false`. Second call: no CNAME, A present, and it still stores `false`. | Each call classifies afresh: `'A'` in the second call. | medium; not executed | GetServerData.StaleFalseHidesARecord | Corrected.GetDnsType |
| lib/get_server_data.rb:150-153 | The `nil` test uses one `ping.ping` call and the stored value comes from a second one. | First reply `true`, second reply `nil`: `ping_status` becomes `nil`. | Store the reply that was checked, with `nil` mapped to `false`, after one probe. | low, because the helper may never return `nil`; not executed | GetServerData.PingCanStoreNil | Corrected.Ping |

The same two behaviours are in lib/gsd.rb:99 and lib/gsd.rb:112-115. The
as-written modules keep them. `Corrected` states the intended versions and
proves where they agree with the code.

## Left out

- Network effects. Resolv, Resolv::DNS, TCPSocket and Net::Ping::External are
  not modelled. Their outcomes are parameters of the transitions.
- An exception from `Net::Ping::External.new` itself. It would propagate
  before any probe and leave `ping_status` unchanged. The model starts at the
  first `ping.ping`, whose exceptions are the `PingError` reply.
- Timeout timing. Wall-clock enforcement of `Timeout::timeout` is not
  modelled. Expiry is the `TimedOut` connect outcome.
- The `timeout` argument of the port and ping probes, and the echo port 7
  passed to the ping helper. The helper's behaviour is foreign, so these
  values do not affect the model.
- A failing `close` after a successful connect. `Connected` stands for
  connect and close both completing.
- Exceptions from `Resolv.getname`, `Resolv.getaddress` and `getresource`
  other than `Resolv::ResolvError`. The lookup outcomes have no such case, so
  their propagation is not modelled.
- Ruby object identity and mutation. Probe methods return a new record
  instead of mutating the receiver. The `attr_reader`s are the record's
  fields.
- The type of `port`. Ruby accepts any object; the model uses an integer.
- Concurrency, cancellation and a diagnostic side channel for unclassified
  errors. The code has none of these.
