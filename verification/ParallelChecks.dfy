/** One check cycle (certwatch/check_thread.py): hosts to check, a pool that checks them in
    any order while shutdown may be set at any moment, and the list rebuilt from its results. */
module ParallelChecks {
  import opened Wrappers
  import opened NetboxSync
  import opened Integers

  // ---- the hosts of a cycle ----

  /** A configuration field that the code converts with `int` or `float`: absent, convertible
      to a value, or one on which the conversion raises, such as null. */
  datatype Setting<T> = Absent | Usable(value: T) | Unusable

  function ValueOr<T>(s: Setting<T>, default: T): T
    requires !s.Unusable?
  {
    if s.Usable? then s.value else default
  }

  /** An element of `manual_hosts`; None for an absent key. */
  datatype ManualHost = ManualHost(hostId: Option<string>, hostname: Option<string>, port: Setting<int>)

  datatype HostRef = ManualRef(hostId: Option<string>) | NetboxRef(deviceId: int)

  datatype Source = Manual | Netbox

  datatype HostEntry = HostEntry(identityKey: string, hostRef: HostRef, source: Source, connectTarget: string, port: int)

  /** `f"manual:{host_id}"` and `f"netbox:{netbox_device_id}"`. */
  function IdentityKey(ref: HostRef): string {
    match ref
    case ManualRef(id) => "manual:" + (if id.Some? then id.value else "None")
    case NetboxRef(id) => "netbox:" + Decimal(id)
  }

  /** `h.get("hostname", "")`. */
  function ManualTarget(h: ManualHost): string {
    if h.hostname.Some? then h.hostname.value else ""
  }

  function ManualEntry(h: ManualHost): HostEntry
    requires !h.port.Unusable?
  {
    HostEntry(IdentityKey(ManualRef(h.hostId)), ManualRef(h.hostId), Manual, ManualTarget(h), ValueOr(h.port, 443))
  }

  /** `nh.ip_address or nh.hostname`. */
  function NetboxTarget(h: DiscoveredHost): string {
    if h.ipAddress.Some? && h.ipAddress.value != "" then h.ipAddress.value else h.hostname
  }

  function NetboxEntry(h: DiscoveredHost): HostEntry {
    HostEntry(IdentityKey(NetboxRef(h.netboxDeviceId)), NetboxRef(h.netboxDeviceId), Netbox, NetboxTarget(h), h.port)
  }

  /** Every manual host's port can be converted. */
  predicate PortsOk(hosts: seq<ManualHost>) {
    forall i | 0 <= i < |hosts| :: !hosts[i].port.Unusable?
  }

  function ManualEntries(hosts: seq<ManualHost>): (r: seq<HostEntry>)
    requires PortsOk(hosts)
    ensures |r| == |hosts| && forall i | 0 <= i < |r| :: r[i] == ManualEntry(hosts[i])
  {
    seq(|hosts|, i requires 0 <= i < |hosts| => ManualEntry(hosts[i]))
  }

  function NetboxEntries(hosts: seq<DiscoveredHost>): (r: seq<HostEntry>)
    ensures |r| == |hosts| && forall i | 0 <= i < |r| :: r[i] == NetboxEntry(hosts[i])
  {
    seq(|hosts|, i requires 0 <= i < |hosts| => NetboxEntry(hosts[i]))
  }

  /** Manual hosts first, in configuration order, then NetBox hosts. */
  function Entries(manual: seq<ManualHost>, netbox: seq<DiscoveredHost>): seq<HostEntry>
    requires PortsOk(manual)
  {
    ManualEntries(manual) + NetboxEntries(netbox)
  }

  /** The loops that build `to_check`; None when a port raises. */
  method BuildToCheck(manual: seq<ManualHost>, netbox: seq<DiscoveredHost>) returns (toCheck: Option<seq<HostEntry>>)
    ensures toCheck == if PortsOk(manual) then Some(Entries(manual, netbox)) else None
  {
    hide IdentityKey, ManualEntry, NetboxEntry;
    var entries: seq<HostEntry> := [];
    for i := 0 to |manual|
      invariant |entries| == i
      invariant forall k | 0 <= k < i :: !manual[k].port.Unusable? && entries[k] == ManualEntry(manual[k])
    {
      if manual[i].port.Unusable? {
        return None;
      }
      entries := entries + [ManualEntry(manual[i])];
    }
    var m := |manual|;
    for i := 0 to |netbox|
      invariant |entries| == m + i && entries[..m] == ManualEntries(manual)
      invariant forall k | 0 <= k < i :: entries[m + k] == NetboxEntry(netbox[k])
    {
      entries := entries + [NetboxEntry(netbox[i])];
    }
    assert entries == entries[..m] + entries[m..] && entries[m..] == NetboxEntries(netbox);
    return Some(entries);
  }

  // ---- identity keys ----

  lemma {:induction false} DigitsInjective(n: nat, m: nat)
    requires Digits(n) == Digits(m)
    ensures n == m
  {
    var a, b := Digits(n), Digits(m);
    assert a[|a| - 1] == Digit(n % 10) && b[|b| - 1] == Digit(m % 10);
    assert n >= 10 ==> a[..|a| - 1] == Digits(n / 10);
    assert m >= 10 ==> b[..|b| - 1] == Digits(m / 10);
    assert n < 10 ==> |a| == 1;
    assert m < 10 ==> |b| == 1;
    if n >= 10 && m >= 10 {
      DigitsInjective(n / 10, m / 10);
    }
  }

  lemma {:induction false} NoSign(n: nat)
    ensures Digits(n)[0] != '-'
  {
    if n >= 10 {
      NoSign(n / 10);
    }
  }

  lemma DecimalInjective(n: int, m: int)
    requires Decimal(n) == Decimal(m)
    ensures n == m
  {
    NoSign(if n < 0 then -n else n);
    NoSign(if m < 0 then -m else m);
    if n < 0 && m < 0 {
      assert Decimal(n)[1..] == Digits(-n) && Decimal(m)[1..] == Digits(-m);
      DigitsInjective(-n, -m);
    } else if n >= 0 && m >= 0 {
      DigitsInjective(n, m);
    }
  }

  /** Keys tell hosts apart across both sources, except that a missing host id reads "None". */
  lemma KeysTellHostsApart(a: HostRef, b: HostRef)
    ensures IdentityKey(a) == IdentityKey(b) <==>
      || a == b
      || (a == ManualRef(None) && b == ManualRef(Some("None")))
      || (b == ManualRef(None) && a == ManualRef(Some("None")))
  {
    assert IdentityKey(a)[0] == 'm' <==> a.ManualRef?;
    assert IdentityKey(b)[0] == 'm' <==> b.ManualRef?;
    if IdentityKey(a) == IdentityKey(b) {
      assert IdentityKey(a)[7..] == IdentityKey(b)[7..];
      match a {
        case ManualRef(x) =>
          assert IdentityKey(a)[7..] == (if x.Some? then x.value else "None");
          assert IdentityKey(b)[7..] == (if b.hostId.Some? then b.hostId.value else "None");
        case NetboxRef(n) =>
          assert IdentityKey(a)[7..] == Decimal(n) && IdentityKey(b)[7..] == Decimal(b.deviceId);
          DecimalInjective(n, b.deviceId);
      }
    }
  }

  ghost predicate DistinctKeys(entries: seq<HostEntry>) {
    forall i, j | 0 <= i < j < |entries| :: entries[i].identityKey != entries[j].identityKey
  }

  // ---- one host's check ----

  /** Timeouts and the expiry threshold of a cycle. */
  datatype Settings = Settings(connectSeconds: real, handshakeSeconds: real, thresholdDays: int)

  /** The call a check makes. */
  datatype CheckCall =
    | CertCheck(target: string, port: int, connectSeconds: real, handshakeSeconds: real)
    | DiscoveryCheck(target: string, port: int, connectSeconds: real, handshakeSeconds: real, thresholdDays: int)

  datatype CheckResult = CheckResult(status: string, checkedAt: string)

  /** An entry of the report's `checks`: the host, which builder made it, and the result. */
  datatype CheckPayload = CheckPayload(hostRef: HostRef, builder: Source, result: CheckResult)

  function CallOf(e: HostEntry, c: Settings): CheckCall {
    if e.source.Netbox? then DiscoveryCheck(e.connectTarget, e.port, c.connectSeconds, c.handshakeSeconds, c.thresholdDays)
    else CertCheck(e.connectTarget, e.port, c.connectSeconds, c.handshakeSeconds)
  }

  /** `_build_payload_for_entry`. */
  function BuildPayload(e: HostEntry, r: CheckResult): CheckPayload {
    CheckPayload(e.hostRef, if e.source.Netbox? then Netbox else Manual, r)
  }

  // ---- results by key, and the list rebuilt from them ----

  type Outcomes = seq<Option<CheckResult>>   // per host: None if skipped or raising

  /** The futures collected belong to the n hosts. */
  predicate Within(order: seq<nat>, n: nat) {
    forall i | 0 <= i < |order| :: order[i] < n
  }

  /** `results` after the futures in `order` have been collected. */
  function Collected(entries: seq<HostEntry>, outcomes: Outcomes, order: seq<nat>): map<string, CheckResult>
    requires |outcomes| == |entries| && Within(order, |entries|)
  {
    if order == [] then map[]
    else
      var rest, k := Collected(entries, outcomes, order[..|order| - 1]), order[|order| - 1];
      match outcomes[k]
      case Some(r) => rest[entries[k].identityKey := r]
      case None => rest
  }

  /** The loop over `to_check` that rebuilds `checks`. */
  function Rebuilt(entries: seq<HostEntry>, results: map<string, CheckResult>): seq<CheckPayload> {
    if entries == [] then []
    else
      var rest, e := Rebuilt(entries[..|entries| - 1], results), entries[|entries| - 1];
      if e.identityKey in results then rest + [BuildPayload(e, results[e.identityKey])] else rest
  }

  /** The meaning of a cycle: check the hosts one after another and report those that have a
      result. */
  function Sequential(entries: seq<HostEntry>, outcomes: Outcomes): seq<CheckPayload>
    requires |outcomes| == |entries|
  {
    if entries == [] then []
    else
      var n := |entries| - 1;
      var rest := Sequential(entries[..n], outcomes[..n]);
      match outcomes[n]
      case Some(r) => rest + [BuildPayload(entries[n], r)]
      case None => rest
  }

  /** The list reports the hosts at positions p, in order, each under its own reference and with
      its own result, from the builder of its source; p are the positions that have a result. */
  ghost predicate ReportsAt(checks: seq<CheckPayload>, p: seq<nat>, entries: seq<HostEntry>, outcomes: Outcomes) {
    && |outcomes| == |entries| && |p| == |checks|
    && (forall i, j | 0 <= i < j < |p| :: p[i] < p[j])
    && (forall k: nat :: k in p <==> k < |entries| && outcomes[k].Some?)
    && forall i | 0 <= i < |p| :: p[i] < |entries| && outcomes[p[i]].Some?
         && checks[i].hostRef == entries[p[i]].hostRef
         && checks[i].builder == entries[p[i]].source
         && checks[i].result == outcomes[p[i]].value
  }

  ghost predicate ReportsEach(checks: seq<CheckPayload>, entries: seq<HostEntry>, outcomes: Outcomes) {
    exists p: seq<nat> :: ReportsAt(checks, p, entries, outcomes)
  }

  /** A last host without a result adds nothing. */
  lemma ReportsSkip(checks: seq<CheckPayload>, p: seq<nat>, entries: seq<HostEntry>, outcomes: Outcomes)
    requires |outcomes| == |entries| > 0 && outcomes[|outcomes| - 1].None?
    requires ReportsAt(checks, p, entries[..|entries| - 1], outcomes[..|entries| - 1])
    ensures ReportsAt(checks, p, entries, outcomes)
  {
  }

  /** A last host with a result adds its position. */
  lemma ReportsLast(checks: seq<CheckPayload>, p: seq<nat>, entries: seq<HostEntry>, outcomes: Outcomes, c: CheckPayload)
    requires |outcomes| == |entries| > 0 && outcomes[|outcomes| - 1].Some?
    requires ReportsAt(checks, p, entries[..|entries| - 1], outcomes[..|entries| - 1])
    requires c.hostRef == entries[|entries| - 1].hostRef && c.builder == entries[|entries| - 1].source
    requires c.result == outcomes[|entries| - 1].value
    ensures ReportsAt(checks + [c], p + [|entries| - 1], entries, outcomes)
  {
    var n, q, checks' := |entries| - 1, p + [|entries| - 1], checks + [c];
    forall i | 0 <= i < |q|
      ensures q[i] < |entries| && outcomes[q[i]].Some? && checks'[i].hostRef == entries[q[i]].hostRef
      ensures checks'[i].builder == entries[q[i]].source && checks'[i].result == outcomes[q[i]].value
    {
      if i < |p| {
        assert q[i] == p[i] < n && checks'[i] == checks[i];
      }
    }
    forall i, j | 0 <= i < j < |q| ensures q[i] < q[j] {
      assert p[i] in p;
    }
    forall k: nat ensures k in q <==> k < |entries| && outcomes[k].Some? {
      assert k in q <==> k in p || k == n;
    }
  }

  /** The sequential list reports each host that has a result, once and as itself. */
  lemma {:induction false} SequentialReportsEach(entries: seq<HostEntry>, outcomes: Outcomes) returns (p: seq<nat>)
    requires |outcomes| == |entries|
    ensures ReportsAt(Sequential(entries, outcomes), p, entries, outcomes)
  {
    if entries == [] {
      p := [];
    } else {
      hide ReportsAt;
      var n := |entries| - 1;
      var rest := SequentialReportsEach(entries[..n], outcomes[..n]);
      match outcomes[n] {
        case Some(r) =>
          p := rest + [n];
          ReportsLast(Sequential(entries[..n], outcomes[..n]), rest, entries, outcomes, BuildPayload(entries[n], r));
        case None =>
          p := rest;
          ReportsSkip(Sequential(entries, outcomes), rest, entries, outcomes);
      }
    }
  }

  /** Every future is collected once. */
  ghost predicate IsSchedule(order: seq<nat>, n: nat) {
    && Within(order, n) && (forall k: nat | k < n :: k in order)
    && forall i, j | 0 <= i < j < |order| :: order[i] != order[j]
  }

  /** With distinct keys the dict holds host k's outcome and nothing else under its key. */
  lemma {:induction false} CollectedAt(entries: seq<HostEntry>, outcomes: Outcomes, order: seq<nat>, k: nat)
    requires |outcomes| == |entries| && Within(order, |entries|)
    requires DistinctKeys(entries) && k < |entries|
    ensures var key, results := entries[k].identityKey, Collected(entries, outcomes, order);
      && (key in results <==> k in order && outcomes[k].Some?)
      && (key in results ==> results[key] == outcomes[k].value)
  {
    if order != [] {
      var last := order[|order| - 1];
      CollectedAt(entries, outcomes, order[..|order| - 1], k);
      assert k in order <==> k in order[..|order| - 1] || k == last;
      assert entries[last].identityKey == entries[k].identityKey <==> last == k;
    }
  }

  lemma {:induction false} RebuiltIsSequential(entries: seq<HostEntry>, outcomes: Outcomes, results: map<string, CheckResult>)
    requires |outcomes| == |entries|
    requires forall k | 0 <= k < |entries| ::
      && (entries[k].identityKey in results <==> outcomes[k].Some?)
      && (entries[k].identityKey in results ==> results[entries[k].identityKey] == outcomes[k].value)
    ensures Rebuilt(entries, results) == Sequential(entries, outcomes)
  {
    if entries != [] {
      var n := |entries| - 1;
      RebuiltIsSequential(entries[..n], outcomes[..n], results);
    }
  }

  /** An outcome per host that no two hosts share. */
  function Distinguishing(n: nat): (r: Outcomes)
    ensures |r| == n && forall i | 0 <= i < n :: r[i].Some? && |r[i].value.checkedAt| == i
  {
    seq(n, (i: nat) => Some(CheckResult("success", seq(i, _ => 'x'))))
  }

  function UpTo(n: nat): (r: seq<nat>)
    ensures |r| == n && forall i | 0 <= i < n :: r[i] == i
  {
    seq<nat>(n, (i: nat) => i)
  }

  /** Collected in input order, a key holds the outcome of its last host. */
  lemma {:induction false} LaterOverwrites(entries: seq<HostEntry>, n: nat, i: nat, j: nat)
    requires i < j < n <= |entries| && entries[i].identityKey == entries[j].identityKey
    ensures var results := Collected(entries, Distinguishing(|entries|), UpTo(n));
      entries[i].identityKey in results && |results[entries[i].identityKey].checkedAt| >= j
  {
    assert UpTo(n)[..n - 1] == UpTo(n - 1);
    if j < n - 1 {
      LaterOverwrites(entries, n - 1, i, j);
    }
  }

  /** What the i-th payload is when every host has a result. */
  lemma {:induction false} SequentialAt(entries: seq<HostEntry>, outcomes: Outcomes, i: nat)
    requires |outcomes| == |entries| && (forall k | 0 <= k < |outcomes| :: outcomes[k].Some?) && i < |entries|
    ensures |Sequential(entries, outcomes)| == |entries|
    ensures Sequential(entries, outcomes)[i] == BuildPayload(entries[i], outcomes[i].value)
  {
    var n := |entries| - 1;
    if n > 0 {
      SequentialAt(entries[..n], outcomes[..n], if i < n then i else 0);
    }
  }

  lemma {:induction false} RebuiltAt(entries: seq<HostEntry>, results: map<string, CheckResult>, i: nat)
    requires (forall k | 0 <= k < |entries| :: entries[k].identityKey in results) && i < |entries|
    ensures |Rebuilt(entries, results)| == |entries|
    ensures Rebuilt(entries, results)[i] == BuildPayload(entries[i], results[entries[i].identityKey])
  {
    var n := |entries| - 1;
    if n > 0 {
      RebuiltAt(entries[..n], results, if i < n then i else 0);
    }
  }

  lemma {:induction false} AllCollected(entries: seq<HostEntry>, n: nat, k: nat)
    requires k < n <= |entries|
    ensures entries[k].identityKey in Collected(entries, Distinguishing(|entries|), UpTo(n))
  {
    assert UpTo(n)[..n - 1] == UpTo(n - 1);
    if k < n - 1 {
      AllCollected(entries, n - 1, k);
    }
  }

  /** Every schedule of every set of outcomes rebuilds the sequential list. */
  ghost predicate ParallelRefinesSequential(entries: seq<HostEntry>) {
    forall outcomes: Outcomes, order: seq<nat> | |outcomes| == |entries| && IsSchedule(order, |entries|) ::
      Rebuilt(entries, Collected(entries, outcomes, order)) == Sequential(entries, outcomes)
  }

  lemma ScheduleDoesNotMatter(entries: seq<HostEntry>, outcomes: Outcomes, order: seq<nat>)
    requires |outcomes| == |entries| && IsSchedule(order, |entries|) && DistinctKeys(entries)
    ensures Rebuilt(entries, Collected(entries, outcomes, order)) == Sequential(entries, outcomes)
  {
    forall k | 0 <= k < |entries|
      ensures (entries[k].identityKey in Collected(entries, outcomes, order) <==> outcomes[k].Some?)
      ensures entries[k].identityKey in Collected(entries, outcomes, order) ==>
        Collected(entries, outcomes, order)[entries[k].identityKey] == outcomes[k].value
    {
      CollectedAt(entries, outcomes, order, k);
    }
    RebuiltIsSequential(entries, outcomes, Collected(entries, outcomes, order));
  }

  lemma UpToIsSchedule(n: nat)
    ensures IsSchedule(UpTo(n), n)
  {
    forall k: nat | k < n ensures k in UpTo(n) {
      assert UpTo(n)[k] == k;
    }
  }

  /** Two hosts under one key, checked and collected in order: the first is reported with the
      second's result, or a later one's. */
  lemma DuplicateKeyDisagrees(entries: seq<HostEntry>, i: nat, j: nat)
    requires i < j < |entries| && entries[i].identityKey == entries[j].identityKey
    ensures !ParallelRefinesSequential(entries)
  {
    hide Rebuilt, Sequential, Collected;
    var n := |entries|;
    var outcomes := Distinguishing(n);
    var results := Collected(entries, outcomes, UpTo(n));
    forall k | 0 <= k < n ensures entries[k].identityKey in results {
      AllCollected(entries, n, k);
    }
    LaterOverwrites(entries, n, i, j);
    SequentialAt(entries, outcomes, i);
    RebuiltAt(entries, results, i);
    UpToIsSchedule(n);
    assert Rebuilt(entries, results)[i] != Sequential(entries, outcomes)[i];
  }

  /** The parallel cycle reports what the sequential one would, whatever order the checks
      finish in, exactly when identity keys are distinct. */
  lemma ParallelIffDistinctKeys(entries: seq<HostEntry>)
    ensures ParallelRefinesSequential(entries) <==> DistinctKeys(entries)
  {
    hide Rebuilt, Sequential, Collected;
    if DistinctKeys(entries) {
      forall outcomes: Outcomes, order: seq<nat> | |outcomes| == |entries| && IsSchedule(order, |entries|)
        ensures Rebuilt(entries, Collected(entries, outcomes, order)) == Sequential(entries, outcomes)
      {
        ScheduleDoesNotMatter(entries, outcomes, order);
      }
    } else {
      var i, j :| 0 <= i < j < |entries| && entries[i].identityKey == entries[j].identityKey;
      DuplicateKeyDisagrees(entries, i, j);
    }
  }
}
