/** On-demand checks (certwatch/action_workers.py) against the cycle (certwatch/check_thread.py):
    when a host reference taken from a cycle leads `check_host` to the same check. */
module HostResolution {
  import opened Wrappers
  import opened NetboxSync
  import opened ParallelChecks

  /** The `timeouts` of a configuration: absent, a falsy value that is no object such as null,
      another value that is no object, or an object. */
  datatype Timeouts =
    | NoTimeouts
    | FalsyTimeouts
    | OtherTimeouts
    | TimeoutsOf(connect: Setting<real>, handshake: Setting<real>)

  /** Its `concurrency`: absent, no object, or an object. */
  datatype Concurrency = NoConcurrency | OtherConcurrency | ConcurrencyOf(maxParallel: Setting<int>)

  /** Empty lists stand for absent and null ones too: the code reads all three alike. Of the
      thresholds each is what `int` makes of it, None when it raises. */
  datatype CheckConfig = CheckConfig(
    manualHosts: seq<ManualHost>,
    timeouts: Timeouts,
    concurrency: Concurrency,
    alertThresholds: seq<Option<int>>)

  // ---- what each path reads of a configuration ----

  predicate ThresholdsOk(c: CheckConfig) {
    None !in c.alertThresholds
  }

  function MaxOf(s: seq<Option<int>>): (m: int)
    requires s != [] && None !in s
    ensures Some(m) in s && forall x | Some(x) in s :: x <= m
  {
    if |s| == 1 then s[0].value
    else
      var rest := MaxOf(s[1..]);
      assert forall x | x in s :: x == s[0] || x in s[1..];
      if s[0].value > rest then s[0].value else rest
  }

  function Threshold(c: CheckConfig): int
    requires ThresholdsOk(c)
  {
    if c.alertThresholds == [] then 30 else MaxOf(c.alertThresholds)
  }

  predicate UsableTimeouts(t: Timeouts)
    requires t.TimeoutsOf?
  {
    !t.connect.Unusable? && !t.handshake.Unusable?
  }

  /** `float(config.get("timeouts", {}).get(...))` raises in neither field. */
  predicate CycleReadsTimeouts(t: Timeouts) {
    t.NoTimeouts? || (t.TimeoutsOf? && UsableTimeouts(t))
  }

  /** The same for `config.get("timeouts", {}) or {}`. */
  predicate ActionReadsTimeouts(t: Timeouts) {
    t.NoTimeouts? || t.FalsyTimeouts? || (t.TimeoutsOf? && UsableTimeouts(t))
  }

  /** `int(config.get("concurrency", {}).get("max_parallel_checks", 20))` does not raise, and
      neither does a thread pool of that size. */
  predicate PoolOk(c: Concurrency) {
    match c
    case NoConcurrency => true
    case OtherConcurrency => false
    case ConcurrencyOf(max) => !max.Unusable? && ValueOr(max, 20) > 0
  }

  /** The cycle gets to its checks. Ports and thresholds of the whole configuration are read in
      any case, the rest only if there is a host to check. */
  predicate CycleRuns(c: CheckConfig, netbox: seq<DiscoveredHost>) {
    && PortsOk(c.manualHosts) && ThresholdsOk(c)
    && (c.manualHosts != [] || netbox != [] ==> CycleReadsTimeouts(c.timeouts) && PoolOk(c.concurrency))
  }

  function SettingsOf(c: CheckConfig): Settings
    requires ThresholdsOk(c) && ActionReadsTimeouts(c.timeouts)
  {
    match c.timeouts
    case TimeoutsOf(connect, handshake) => Settings(ValueOr(connect, 5.0), ValueOr(handshake, 5.0), Threshold(c))
    case _ => Settings(5.0, 5.0, Threshold(c))
  }

  // ---- on demand ----

  /** What becomes of a check: the host is not found, an exception ends the attempt, or a call is
      made whose result goes through a payload builder under a reference. */
  datatype Resolution = NotFound | Raises | Resolved(call: CheckCall, builder: Source, hostRef: HostRef)

  /** `next(h for h in netbox_hosts if h.netbox_device_id == id)`, and the first manual host
      with the given id. */
  function FirstNetbox(id: int, hosts: seq<DiscoveredHost>): (r: Option<DiscoveredHost>)
    ensures match r
      case Some(h) => exists i :: 0 <= i < |hosts| && hosts[i] == h && h.netboxDeviceId == id
                                  && forall j | 0 <= j < i :: hosts[j].netboxDeviceId != id
      case None => forall i | 0 <= i < |hosts| :: hosts[i].netboxDeviceId != id
  {
    if hosts == [] then None
    else
      var n := |hosts| - 1;
      var rest := FirstNetbox(id, hosts[..n]);
      if rest.Some? then rest else if hosts[n].netboxDeviceId == id then Some(hosts[n]) else None
  }

  function FirstManual(id: string, hosts: seq<ManualHost>): (r: Option<ManualHost>)
    ensures match r
      case Some(h) => exists i :: 0 <= i < |hosts| && hosts[i] == h && h.hostId == Some(id)
                                  && forall j | 0 <= j < i :: hosts[j].hostId != Some(id)
      case None => forall i | 0 <= i < |hosts| :: hosts[i].hostId != Some(id)
  {
    if hosts == [] then None
    else
      var n := |hosts| - 1;
      var rest := FirstManual(id, hosts[..n]);
      if rest.Some? then rest else if hosts[n].hostId == Some(id) then Some(hosts[n]) else None
  }

  /** A manual host once found: its port and the timeouts are read, no threshold is. */
  function CheckManual(h: ManualHost, ref: HostRef, t: Timeouts): Resolution {
    if h.port.Unusable? || !ActionReadsTimeouts(t) then Raises
    else
      var connect := if t.TimeoutsOf? then ValueOr(t.connect, 5.0) else 5.0;
      var handshake := if t.TimeoutsOf? then ValueOr(t.handshake, 5.0) else 5.0;
      Resolved(CertCheck(ManualTarget(h), ValueOr(h.port, 443), connect, handshake), Manual, ref)
  }

  /** A NetBox host once found: the timeouts are read, and the thresholds. */
  function CheckNetbox(h: DiscoveredHost, ref: HostRef, c: CheckConfig): Resolution {
    if !ActionReadsTimeouts(c.timeouts) || !ThresholdsOk(c) then Raises
    else
      var s := SettingsOf(c);
      Resolved(DiscoveryCheck(NetboxTarget(h), h.port, s.connectSeconds, s.handshakeSeconds, s.thresholdDays), Netbox, ref)
  }

  /** What `check_host` does with a reference. */
  function OnDemand(ref: HostRef, c: CheckConfig, netbox: seq<DiscoveredHost>): Resolution {
    match ref
    case ManualRef(id) =>
      if id.None? || id.value == "" then NotFound
      else
        (match FirstManual(id.value, c.manualHosts)
         case None => NotFound
         case Some(h) => CheckManual(h, ref, c.timeouts))
    case NetboxRef(id) =>
      match FirstNetbox(id, netbox)
      case None => NotFound
      case Some(h) => CheckNetbox(h, ref, c)
  }

  /** `_resolve_manual_host` up to the port's conversion. */
  method ResolveManualHost(hostId: Option<string>, c: CheckConfig) returns (r: Option<ManualHost>)
    ensures r == if hostId.Some? && hostId.value != "" then FirstManual(hostId.value, c.manualHosts) else None
  {
    if hostId.None? || hostId.value == "" {
      return None;
    }
    var hosts := c.manualHosts;
    for i := 0 to |hosts|
      invariant FirstManual(hostId.value, hosts[..i]) == None
    {
      if hosts[i].hostId == hostId {
        assert FirstManual(hostId.value, hosts) == Some(hosts[i]);
        return Some(hosts[i]);
      }
      assert hosts[..i + 1][..i] == hosts[..i];
    }
    assert hosts[..|hosts|] == hosts;
    return None;
  }

  /** The `check_host` handler up to the check: the branch on the reference's type, the search
      for the host, and the conversions that may raise. */
  method HandleCheckHost(ref: HostRef, c: CheckConfig, netbox: seq<DiscoveredHost>) returns (r: Resolution)
    ensures r == OnDemand(ref, c, netbox)
  {
    hide IdentityKey, ManualEntry, NetboxTarget, Threshold, CheckManual, CheckNetbox;
    match ref {
      case ManualRef(id) =>
        var found := ResolveManualHost(id, c);
        if found.None? {
          return NotFound;
        }
        return CheckManual(found.value, ref, c.timeouts);
      case NetboxRef(id) =>
        for i := 0 to |netbox|
          invariant FirstNetbox(id, netbox[..i]) == None
        {
          if netbox[i].netboxDeviceId == id {
            assert FirstNetbox(id, netbox) == Some(netbox[i]);
            return CheckNetbox(netbox[i], ref, c);
          }
          assert netbox[..i + 1][..i] == netbox[..i];
        }
        assert netbox[..|netbox|] == netbox;
        return NotFound;
    }
  }

  // ---- in the cycle ----

  function RefAt(c: CheckConfig, netbox: seq<DiscoveredHost>, i: nat): HostRef
    requires i < |c.manualHosts| + |netbox|
  {
    if i < |c.manualHosts| then ManualRef(c.manualHosts[i].hostId)
    else NetboxRef(netbox[i - |c.manualHosts|].netboxDeviceId)
  }

  /** What the cycle does with its i-th host; an exception before the checks ends it for all. */
  function InCycle(c: CheckConfig, netbox: seq<DiscoveredHost>, i: nat): Resolution
    requires i < |c.manualHosts| + |netbox|
  {
    if !CycleRuns(c, netbox) then Raises
    else
      var e := Entries(c.manualHosts, netbox)[i];
      Resolved(CallOf(e, SettingsOf(c)), BuildPayload(e, CheckResult("", "")).builder, e.hostRef)
  }

  // ---- what the readings come to ----

  /** The seconds a timeout field stands for. */
  ghost predicate Seconds(t: Timeouts, connect: real, handshake: real) {
    && (t.TimeoutsOf? && t.connect.Usable? ==> connect == t.connect.value)
    && (t.TimeoutsOf? && t.connect.Absent? ==> connect == 5.0)
    && (t.TimeoutsOf? && t.handshake.Usable? ==> handshake == t.handshake.value)
    && (t.TimeoutsOf? && t.handshake.Absent? ==> handshake == 5.0)
    && (!t.TimeoutsOf? ==> connect == 5.0 && handshake == 5.0)
  }

  /** The largest threshold, 30 days without any. */
  ghost predicate ThresholdIs(c: CheckConfig, days: int) {
    && (c.alertThresholds == [] ==> days == 30)
    && (c.alertThresholds != [] ==> Some(days) in c.alertThresholds)
    && forall x | Some(x) in c.alertThresholds :: x <= days
  }

  /** A manual host is checked under its name, empty if it has none, at its port, 443 if it has
      none, by the first check function. */
  ghost predicate IsManualCheck(call: CheckCall, h: ManualHost, c: CheckConfig) {
    && call.CertCheck?
    && call.target == (if h.hostname.Some? then h.hostname.value else "")
    && (h.port.Usable? ==> call.port == h.port.value) && (h.port.Absent? ==> call.port == 443)
    && Seconds(c.timeouts, call.connectSeconds, call.handshakeSeconds)
  }

  /** A NetBox host is checked at its address, or under its name if it has no address or an empty
      one, by the discovery check, with the threshold. */
  ghost predicate IsNetboxCheck(call: CheckCall, h: DiscoveredHost, c: CheckConfig) {
    && call.DiscoveryCheck?
    && (h.ipAddress.Some? && h.ipAddress.value != "" ==> call.target == h.ipAddress.value)
    && (h.ipAddress == None || h.ipAddress == Some("") ==> call.target == h.hostname)
    && call.port == h.port
    && Seconds(c.timeouts, call.connectSeconds, call.handshakeSeconds) && ThresholdIs(c, call.thresholdDays)
  }

  /** A timeout field on which `float` raises. */
  ghost predicate BadTimeoutField(t: Timeouts) {
    t.TimeoutsOf? && (t.connect.Unusable? || t.handshake.Unusable?)
  }

  /** Which values let a cycle get to its checks; without a host, timeouts and pool size are not
      read and may be anything. */
  lemma CycleRunsIff(c: CheckConfig, netbox: seq<DiscoveredHost>)
    ensures CycleRuns(c, netbox) <==>
      && (forall k | 0 <= k < |c.manualHosts| :: c.manualHosts[k].port.Absent? || c.manualHosts[k].port.Usable?)
      && None !in c.alertThresholds
      && (c.manualHosts != [] || netbox != [] ==>
            && (c.timeouts.NoTimeouts? || c.timeouts.TimeoutsOf?) && !BadTimeoutField(c.timeouts)
            && (c.concurrency.NoConcurrency?
                || (c.concurrency.ConcurrencyOf?
                    && (c.concurrency.maxParallel.Absent? || (c.concurrency.maxParallel.Usable? && c.concurrency.maxParallel.value > 0)))))
  {
  }

  /** When the cycle raises before its checks, and what it does with each host otherwise: manual
      hosts first, each under its own id. */
  lemma CycleCheckIs(c: CheckConfig, netbox: seq<DiscoveredHost>, i: nat)
    requires i < |c.manualHosts| + |netbox|
    ensures InCycle(c, netbox, i) == Raises <==>
      || (exists k | 0 <= k < |c.manualHosts| :: c.manualHosts[k].port.Unusable?)
      || None in c.alertThresholds
      || c.timeouts.FalsyTimeouts? || c.timeouts.OtherTimeouts? || BadTimeoutField(c.timeouts)
      || c.concurrency.OtherConcurrency?
      || (c.concurrency.ConcurrencyOf?
          && (c.concurrency.maxParallel.Unusable? || (c.concurrency.maxParallel.Usable? && c.concurrency.maxParallel.value <= 0)))
    ensures InCycle(c, netbox, i) != NotFound
    ensures InCycle(c, netbox, i).Resolved? ==>
      var r, n := InCycle(c, netbox, i), |c.manualHosts|;
      if i < n then r.builder == Manual && r.hostRef == ManualRef(c.manualHosts[i].hostId) && IsManualCheck(r.call, c.manualHosts[i], c)
      else r.builder == Netbox && r.hostRef == NetboxRef(netbox[i - n].netboxDeviceId) && IsNetboxCheck(r.call, netbox[i - n], c)
  {
    hide IdentityKey, MaxOf;
  }

  /** What `check_host` does with a manual reference: nothing without an id or a host of that id;
      otherwise the first such host is checked, unless its port or a timeout raises. */
  lemma ManualActionIs(id: Option<string>, c: CheckConfig, netbox: seq<DiscoveredHost>)
    ensures var r := OnDemand(ManualRef(id), c, netbox);
      && (r == NotFound <==>
            id == None || id == Some("") || forall k | 0 <= k < |c.manualHosts| :: c.manualHosts[k].hostId != id)
      && (r != NotFound ==>
            exists m | 0 <= m < |c.manualHosts| ::
              && c.manualHosts[m].hostId == id && (forall j | 0 <= j < m :: c.manualHosts[j].hostId != id)
              && (r == Raises <==> c.manualHosts[m].port.Unusable? || c.timeouts.OtherTimeouts? || BadTimeoutField(c.timeouts))
              && (r.Resolved? ==> r.builder == Manual && r.hostRef == ManualRef(id) && IsManualCheck(r.call, c.manualHosts[m], c)))
  {
    hide IdentityKey;
  }

  /** The same for a NetBox reference. */
  lemma NetboxActionIs(id: int, c: CheckConfig, netbox: seq<DiscoveredHost>)
    ensures var r := OnDemand(NetboxRef(id), c, netbox);
      && (r == NotFound <==> forall k | 0 <= k < |netbox| :: netbox[k].netboxDeviceId != id)
      && (r != NotFound ==>
            exists m | 0 <= m < |netbox| ::
              && netbox[m].netboxDeviceId == id && (forall j | 0 <= j < m :: netbox[j].netboxDeviceId != id)
              && (r == Raises <==> None in c.alertThresholds || c.timeouts.OtherTimeouts? || BadTimeoutField(c.timeouts))
              && (r.Resolved? ==> r.builder == Netbox && r.hostRef == NetboxRef(id) && IsNetboxCheck(r.call, netbox[m], c)))
  {
    hide IdentityKey, MaxOf;
  }

  // ---- when the two agree ----

  /** The id leads to this manual host, or to one checked in the same way. */
  ghost predicate ManualIdentified(hosts: seq<ManualHost>, i: nat)
    requires i < |hosts|
  {
    && hosts[i].hostId.Some? && hosts[i].hostId.value != ""
    && forall m | 0 <= m < i && hosts[m].hostId == hosts[i].hostId && (forall j | 0 <= j < m :: hosts[j].hostId != hosts[m].hostId) ::
         ManualAlike(hosts[m], hosts[i])
  }

  predicate ManualAlike(a: ManualHost, b: ManualHost) {
    && ManualTarget(a) == ManualTarget(b) && (a.port.Unusable? <==> b.port.Unusable?)
    && (!a.port.Unusable? ==> ValueOr(a.port, 443) == ValueOr(b.port, 443))
  }

  ghost predicate NetboxIdentified(hosts: seq<DiscoveredHost>, i: nat)
    requires i < |hosts|
  {
    forall m | 0 <= m < i && hosts[m].netboxDeviceId == hosts[i].netboxDeviceId
               && (forall j | 0 <= j < m :: hosts[j].netboxDeviceId != hosts[m].netboxDeviceId) ::
      NetboxAlike(hosts[m], hosts[i])
  }

  predicate NetboxAlike(a: DiscoveredHost, b: DiscoveredHost) {
    NetboxTarget(a) == NetboxTarget(b) && a.port == b.port
  }

  ghost predicate Identified(c: CheckConfig, netbox: seq<DiscoveredHost>, i: nat)
    requires i < |c.manualHosts| + |netbox|
  {
    if i < |c.manualHosts| then ManualIdentified(c.manualHosts, i) else NetboxIdentified(netbox, i - |c.manualHosts|)
  }

  /** The action itself raises for the i-th host's reference: the first manual host of its id has
      an unusable port, a NetBox check meets an unusable threshold, or the timeouts are
      unusable. */
  predicate ActionRaises(c: CheckConfig, netbox: seq<DiscoveredHost>, i: nat)
    requires i < |c.manualHosts| + |netbox|
  {
    if i >= |c.manualHosts| then !ActionReadsTimeouts(c.timeouts) || !ThresholdsOk(c)
    else
      var id := c.manualHosts[i].hostId;
      id.Some? && id.value != "" && FirstManual(id.value, c.manualHosts).Some?
      && (!ActionReadsTimeouts(c.timeouts) || FirstManual(id.value, c.manualHosts).value.port.Unusable?)
  }

  lemma SameManualIff(c: CheckConfig, netbox: seq<DiscoveredHost>, i: nat)
    requires i < |c.manualHosts|
    ensures OnDemand(RefAt(c, netbox, i), c, netbox) == InCycle(c, netbox, i) <==>
      if CycleRuns(c, netbox) then ManualIdentified(c.manualHosts, i) else ActionRaises(c, netbox, i)
  {
    hide IdentityKey, Threshold, NetboxTarget, FirstManual, FirstNetbox;
    var hosts, id := c.manualHosts, c.manualHosts[i].hostId;
    if id.Some? && id.value != "" {
      var first := FirstManual(id.value, hosts);
      var m :| 0 <= m < |hosts| && hosts[m] == first.value && hosts[m].hostId == id
               && forall j | 0 <= j < m :: hosts[j].hostId != id;
      assert m <= i;
      if m < i {
        OnlyOneFirst(hosts, i, m);
      }
    }
  }

  lemma OnlyOneFirst(hosts: seq<ManualHost>, i: nat, m: nat)
    requires m < i < |hosts| && hosts[m].hostId == hosts[i].hostId && hosts[i].hostId.Some? && hosts[i].hostId.value != ""
    requires forall j | 0 <= j < m :: hosts[j].hostId != hosts[i].hostId
    ensures ManualIdentified(hosts, i) <==> ManualAlike(hosts[m], hosts[i])
  {
    hide ManualAlike;
  }

  lemma SameNetboxIff(c: CheckConfig, netbox: seq<DiscoveredHost>, k: nat)
    requires k < |netbox|
    ensures OnDemand(RefAt(c, netbox, |c.manualHosts| + k), c, netbox) == InCycle(c, netbox, |c.manualHosts| + k) <==>
      if CycleRuns(c, netbox) then NetboxIdentified(netbox, k) else ActionRaises(c, netbox, |c.manualHosts| + k)
  {
    hide IdentityKey, Threshold, NetboxTarget, FirstManual, FirstNetbox, ManualEntry;
    var id := netbox[k].netboxDeviceId;
    var first := FirstNetbox(id, netbox);
    var m :| 0 <= m < |netbox| && netbox[m] == first.value && netbox[m].netboxDeviceId == id
             && forall j | 0 <= j < m :: netbox[j].netboxDeviceId != id;
    assert m <= k;
  }

  /** For every configuration and every host of its cycle: `check_host` makes the same call with
      the same builder and reference as the cycle, or raises as the cycle does, exactly when,
      if the cycle gets to its checks, the reference identifies the host, and, if it does not,
      the action meets an unusable value of its own. */
  lemma SameOutcomeIff(c: CheckConfig, netbox: seq<DiscoveredHost>, i: nat)
    requires i < |c.manualHosts| + |netbox|
    ensures OnDemand(RefAt(c, netbox, i), c, netbox) == InCycle(c, netbox, i) <==>
      if CycleRuns(c, netbox) then Identified(c, netbox, i) else ActionRaises(c, netbox, i)
  {
    hide OnDemand, InCycle, RefAt, CycleRuns, ManualIdentified, NetboxIdentified, ActionRaises;
    if i < |c.manualHosts| {
      SameManualIff(c, netbox, i);
    } else {
      SameNetboxIff(c, netbox, i - |c.manualHosts|);
    }
  }

  /** Every host of the cycle is checked, and on demand in the same way. */
  ghost predicate Agree(c: CheckConfig, netbox: seq<DiscoveredHost>) {
    forall i | 0 <= i < |c.manualHosts| + |netbox| ::
      OnDemand(RefAt(c, netbox, i), c, netbox) == InCycle(c, netbox, i) && InCycle(c, netbox, i).Resolved?
  }

  /** Manual hosts have non-empty ids, and hosts that share an id share target and port. */
  ghost predicate IdsIdentify(manual: seq<ManualHost>, netbox: seq<DiscoveredHost>) {
    && (forall i | 0 <= i < |manual| :: manual[i].hostId.Some? && manual[i].hostId.value != "")
    && (forall i, j | 0 <= i < j < |manual| && manual[i].hostId == manual[j].hostId :: ManualAlike(manual[i], manual[j]))
    && forall i, j | 0 <= i < j < |netbox| && netbox[i].netboxDeviceId == netbox[j].netboxDeviceId ::
         NetboxAlike(netbox[i], netbox[j])
  }

  lemma FirstOfManual(hosts: seq<ManualHost>, i: nat) returns (m: nat)
    requires i < |hosts|
    ensures m <= i && hosts[m].hostId == hosts[i].hostId
    ensures forall j | 0 <= j < m :: hosts[j].hostId != hosts[m].hostId
  {
    m := 0;
    while hosts[m].hostId != hosts[i].hostId
      invariant m <= i && forall j | 0 <= j < m :: hosts[j].hostId != hosts[i].hostId
      decreases i - m
    {
      m := m + 1;
    }
  }

  lemma FirstOfNetbox(hosts: seq<DiscoveredHost>, i: nat) returns (m: nat)
    requires i < |hosts|
    ensures m <= i && hosts[m].netboxDeviceId == hosts[i].netboxDeviceId
    ensures forall j | 0 <= j < m :: hosts[j].netboxDeviceId != hosts[m].netboxDeviceId
  {
    m := 0;
    while hosts[m].netboxDeviceId != hosts[i].netboxDeviceId
      invariant m <= i && forall j | 0 <= j < m :: hosts[j].netboxDeviceId != hosts[i].netboxDeviceId
      decreases i - m
    {
      m := m + 1;
    }
  }

  lemma ManualPairAlike(hosts: seq<ManualHost>, i: nat, j: nat)
    requires i < j < |hosts| && hosts[i].hostId == hosts[j].hostId
    requires ManualIdentified(hosts, i) && ManualIdentified(hosts, j)
    ensures ManualAlike(hosts[i], hosts[j])
  {
    var m := FirstOfManual(hosts, i);
    assert ManualAlike(hosts[m], hosts[j]);
    assert m < i ==> ManualAlike(hosts[m], hosts[i]);
  }

  lemma NetboxPairAlike(hosts: seq<DiscoveredHost>, i: nat, j: nat)
    requires i < j < |hosts| && hosts[i].netboxDeviceId == hosts[j].netboxDeviceId
    requires NetboxIdentified(hosts, i) && NetboxIdentified(hosts, j)
    ensures NetboxAlike(hosts[i], hosts[j])
  {
    hide NetboxTarget;
    var m := FirstOfNetbox(hosts, i);
    assert NetboxAlike(hosts[m], hosts[j]);
    assert m < i ==> NetboxAlike(hosts[m], hosts[i]);
  }

  lemma IdsGiveIdentified(c: CheckConfig, netbox: seq<DiscoveredHost>, i: nat)
    requires IdsIdentify(c.manualHosts, netbox) && i < |c.manualHosts| + |netbox|
    ensures Identified(c, netbox, i)
  {
    hide ManualAlike, NetboxAlike;
  }

  lemma IdentifiedGivesIds(c: CheckConfig, netbox: seq<DiscoveredHost>)
    requires forall i | 0 <= i < |c.manualHosts| + |netbox| :: Identified(c, netbox, i)
    ensures IdsIdentify(c.manualHosts, netbox)
  {
    hide ManualAlike, NetboxAlike, ManualIdentified, NetboxIdentified;
    var hosts, n := c.manualHosts, |c.manualHosts|;
    forall i | 0 <= i < n
      ensures ManualIdentified(hosts, i) && hosts[i].hostId.Some? && hosts[i].hostId.value != ""
    {
      assert Identified(c, netbox, i);
      IdentifiedHasId(hosts, i);
    }
    forall i, j | 0 <= i < j < n && hosts[i].hostId == hosts[j].hostId
      ensures ManualAlike(hosts[i], hosts[j])
    {
      ManualPairAlike(hosts, i, j);
    }
    forall i, j | 0 <= i < j < |netbox| && netbox[i].netboxDeviceId == netbox[j].netboxDeviceId
      ensures NetboxAlike(netbox[i], netbox[j])
    {
      assert Identified(c, netbox, n + i) && Identified(c, netbox, n + j);
      NetboxPairAlike(netbox, i, j);
    }
  }

  lemma IdentifiedHasId(hosts: seq<ManualHost>, i: nat)
    requires i < |hosts| && ManualIdentified(hosts, i)
    ensures hosts[i].hostId.Some? && hosts[i].hostId.value != ""
  {
  }

  /** Each host is identified exactly when ids identify hosts. */
  lemma IdentifiedIff(c: CheckConfig, netbox: seq<DiscoveredHost>)
    ensures (forall i | 0 <= i < |c.manualHosts| + |netbox| :: Identified(c, netbox, i)) <==> IdsIdentify(c.manualHosts, netbox)
  {
    hide Identified, IdsIdentify;
    if forall i | 0 <= i < |c.manualHosts| + |netbox| :: Identified(c, netbox, i) {
      IdentifiedGivesIds(c, netbox);
    } else if IdsIdentify(c.manualHosts, netbox) {
      forall i | 0 <= i < |c.manualHosts| + |netbox| ensures Identified(c, netbox, i) {
        IdsGiveIdentified(c, netbox, i);
      }
    }
  }

  /** `check_host` checks every host of the cycle as the cycle does, with the same connect
      target, port, timeouts, threshold, check function and builder, exactly when there is no
      host, or the cycle's own readings of the configuration raise nothing and ids identify
      hosts. */
  lemma CycleAndOnDemandAgreeIff(c: CheckConfig, netbox: seq<DiscoveredHost>)
    ensures Agree(c, netbox) <==>
      (c.manualHosts == [] && netbox == []) || (CycleRuns(c, netbox) && IdsIdentify(c.manualHosts, netbox))
  {
    hide OnDemand, RefAt, CycleRuns, Identified, IdsIdentify, Entries;
    IdentifiedIff(c, netbox);
    forall i | 0 <= i < |c.manualHosts| + |netbox|
      ensures OnDemand(RefAt(c, netbox, i), c, netbox) == InCycle(c, netbox, i) <==>
        if CycleRuns(c, netbox) then Identified(c, netbox, i) else ActionRaises(c, netbox, i)
    {
      SameOutcomeIff(c, netbox, i);
    }
    if c.manualHosts != [] || netbox != [] {
      assert InCycle(c, netbox, 0).Resolved? <==> CycleRuns(c, netbox);
    }
  }

  /** The failing family is met by ordinary values: with a pool of size 0, a null `concurrency` or
      a null `timeouts` the cycle checks nothing and `check_host` still checks the host. */
  lemma PoolOfZeroStopsTheCycle(bad: CheckConfig)
    requires bad.manualHosts == [ManualHost(Some("a"), Some("example.com"), Absent)] && bad.alertThresholds == []
    requires || (bad.concurrency == ConcurrencyOf(Usable(0)) && bad.timeouts == NoTimeouts)
             || (bad.concurrency == OtherConcurrency && bad.timeouts == NoTimeouts)
             || (bad.concurrency == NoConcurrency && bad.timeouts == FalsyTimeouts)
    ensures InCycle(bad, [], 0) == Raises
    ensures OnDemand(RefAt(bad, [], 0), bad, []) == Resolved(CertCheck("example.com", 443, 5.0, 5.0), Manual, ManualRef(Some("a")))
  {
    var hosts := bad.manualHosts;
    assert FirstManual("a", hosts) == Some(hosts[0]);
  }
}
