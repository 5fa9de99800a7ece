/** certwatch/netbox_sync.py: one NetBox sync, imperatively and as steps that other threads'
    steps may come between, and the wire form of a discovered host. */
module NetboxSync {
  import opened Wrappers
  import opened JsonValues
  import opened Clock
  import Backoff

  datatype DiscoveredHost = DiscoveredHost(
    netboxDeviceId: int,
    hostname: string,
    port: int,
    displayName: Option<string>,
    tags: seq<string>,
    ipAddress: Option<string>)

  // ---- the payload ----

  datatype Field = DeviceIdField | HostnameField | PortField | DisplayNameField | IpAddressField | TagsField

  /** One entry of the `hosts` array of a /discovered-hosts body. */
  datatype Entry = Entry(fields: map<Field, Json>)

  function Strings(texts: seq<string>): seq<Json> {
    if texts == [] then [] else Strings(texts[..|texts| - 1]) + [Str(texts[|texts| - 1])]
  }

  /** `_host_to_payload`: absent optional fields are omitted, tags never are. */
  function HostToPayload(h: DiscoveredHost): Entry {
    var out := map[DeviceIdField := Num(h.netboxDeviceId), HostnameField := Str(h.hostname), PortField := Num(h.port)];
    var named := if h.displayName.Some? then out[DisplayNameField := Str(h.displayName.value)] else out;
    var placed := if h.ipAddress.Some? then named[IpAddressField := Str(h.ipAddress.value)] else named;
    Entry(placed[TagsField := Arr(Strings(h.tags))])
  }

  /** Which field carries what; an absent display name or address is omitted, not null. */
  lemma PayloadFields(h: DiscoveredHost)
    ensures var f := HostToPayload(h).fields;
      && DeviceIdField in f && f[DeviceIdField] == Num(h.netboxDeviceId)
      && HostnameField in f && f[HostnameField] == Str(h.hostname)
      && PortField in f && f[PortField] == Num(h.port)
      && (DisplayNameField in f <==> h.displayName.Some?) && (h.displayName.Some? ==> f[DisplayNameField] == Str(h.displayName.value))
      && (IpAddressField in f <==> h.ipAddress.Some?) && (h.ipAddress.Some? ==> f[IpAddressField] == Str(h.ipAddress.value))
      && TagsField in f && f[TagsField].Arr? && |f[TagsField].items| == |h.tags|
      && forall i | 0 <= i < |h.tags| :: f[TagsField].items[i] == Str(h.tags[i])
  {
    StringsAre(h.tags);
  }

  lemma {:induction false} StringsAre(texts: seq<string>)
    ensures |Strings(texts)| == |texts| && forall i | 0 <= i < |texts| :: Strings(texts)[i] == Str(texts[i])
  {
    if texts != [] {
      StringsAre(texts[..|texts| - 1]);
    }
  }

  /** The `hosts` array for a fetch result. */
  function Payload(hosts: seq<DiscoveredHost>): (r: seq<Entry>)
    ensures |r| == |hosts| && forall i | 0 <= i < |r| :: r[i] == HostToPayload(hosts[i])
  {
    seq(|hosts|, i requires 0 <= i < |hosts| => HostToPayload(hosts[i]))
  }

  /** The texts of a JSON array of strings. */
  function Texts(items: seq<Json>): Option<seq<string>> {
    if items == [] then Some([])
    else
      var rest, last := Texts(items[..|items| - 1]), items[|items| - 1];
      if rest.Some? && last.Str? then Some(rest.value + [last.s]) else None
  }

  /** A required field. */
  predicate HasField(e: Entry, f: Field) {
    f in e.fields
  }

  function OptionalText(e: Entry, f: Field): Option<Option<string>> {
    if !HasField(e, f) then Some(None)
    else match e.fields[f]
      case Str(s) => Some(Some(s))
      case _ => None
  }

  /** What a reader of the contract makes of an entry. */
  function Decode(e: Entry): Option<DiscoveredHost> {
    var f := e.fields;
    if !(DeviceIdField in f && HostnameField in f && PortField in f && TagsField in f) then None
    else
      var name, ip := OptionalText(e, DisplayNameField), OptionalText(e, IpAddressField);
      if !(f[DeviceIdField].Num? && f[HostnameField].Str? && f[PortField].Num? && f[TagsField].Arr?) then None
      else
        var tags := Texts(f[TagsField].items);
        if name.None? || ip.None? || tags.None? then None
        else Some(DiscoveredHost(f[DeviceIdField].n, f[HostnameField].s, f[PortField].n, name.value, tags.value, ip.value))
  }

  lemma {:induction false} TextsOfStrings(texts: seq<string>)
    ensures Texts(Strings(texts)) == Some(texts)
  {
    if texts != [] {
      TextsOfStrings(texts[..|texts| - 1]);
      assert Strings(texts)[..|Strings(texts)| - 1] == Strings(texts[..|texts| - 1]);
      assert texts == texts[..|texts| - 1] + [texts[|texts| - 1]];
    }
  }

  /** Round trip: the dashboard can recover every field, absent ones included. */
  lemma HostRoundTrip(h: DiscoveredHost)
    ensures Decode(HostToPayload(h)) == Some(h)
  {
    TextsOfStrings(h.tags);
  }

  /** Hence a hosts array determines the fetch it came from, order included. */
  lemma PayloadInjective(a: seq<DiscoveredHost>, b: seq<DiscoveredHost>)
    requires Payload(a) == Payload(b)
    ensures a == b
  {
    hide HostToPayload, Decode;
    assert |a| == |Payload(a)| == |b|;
    forall i | 0 <= i < |a| ensures a[i] == b[i] {
      HostRoundTrip(a[i]);
      HostRoundTrip(b[i]);
      assert Payload(a)[i] == Payload(b)[i];
    }
  }

  // ---- one sync, as interleaved steps ----

  /** All successful fetches in the order they returned, the agent's local view, whether it
      has ever been replaced, and the hosts arrays sent to the dashboard. */
  datatype Inventory = Inventory(
    fetches: seq<seq<DiscoveredHost>>,
    local: seq<DiscoveredHost>,
    replaced: bool,
    posts: seq<seq<Entry>>)

  datatype SyncStatus = Success | NetboxError | SubmissionError | ShutDown | AuthRaised | Crashed | Unfinished

  datatype SyncPc =
    | Fetching
    | Fetched(hosts: seq<DiscoveredHost>)      // before `netbox_hosts_state.replace`
    | Looping(hosts: seq<DiscoveredHost>)      // at the head of the retry loop
    | Calling(hosts: seq<DiscoveredHost>)
    | Backing(hosts: seq<DiscoveredHost>)
    | Ended(status: SyncStatus)

  const NEW_INVENTORY: Inventory := Inventory([], [], false, [])

  /** One atomic action of a sync standing at `pc`, with the shutdown flag as it reads it. */
  ghost predicate SyncMove(v: Inventory, pc: SyncPc, shutdown: bool, v': Inventory, pc': SyncPc) {
    match pc
    case Fetching =>
      && v'.local == v.local && v'.replaced == v.replaced && v'.posts == v.posts
      && (|| (pc'.Fetched? && v'.fetches == v.fetches + [pc'.hosts])
          || (v'.fetches == v.fetches && (pc' == Ended(NetboxError) || pc' == Ended(Crashed))))
    case Fetched(hosts) =>
      v'.local == hosts && v'.replaced && v'.fetches == v.fetches && v'.posts == v.posts && pc' == Looping(hosts)
    case Looping(hosts) =>
      && v'.local == v.local && v'.replaced == v.replaced && v'.fetches == v.fetches
      && if shutdown then pc' == Ended(ShutDown) && v'.posts == v.posts
         else pc' == Calling(hosts) && v'.posts == v.posts + [Payload(hosts)]
    case Calling(hosts) =>
      && v' == v
      && (|| pc' == Backing(hosts)
          || (pc'.Ended? && (pc'.status.Success? || pc'.status.SubmissionError? || pc'.status.AuthRaised? || pc'.status.Crashed?)))
    case Backing(hosts) =>
      v' == v && (pc' == Looping(hosts) || (shutdown && pc' == Ended(ShutDown)))
    case Ended(_) => false
  }

  /** The sync ended after a successful fetch. */
  predicate HadFetched(status: SyncStatus) {
    status.Success? || status.SubmissionError? || status.ShutDown? || status.AuthRaised?
  }

  /** A sync past its fetch works with that fetch's result, and once past the replacement the
      local view is no longer the initial one. */
  predicate SyncOk(v: Inventory, pc: SyncPc) {
    match pc
    case Fetching => true
    case Fetched(hosts) => hosts in v.fetches
    case Ended(status) => HadFetched(status) ==> v.replaced
    case _ => pc.hosts in v.fetches && v.replaced
  }

  /** The entries are the payloads of some fetch's hosts, in its order. */
  ghost predicate IsImageOfFetch(v: Inventory, entries: seq<Entry>) {
    exists k | 0 <= k < |v.fetches| :: entries == Payload(v.fetches[k])
  }

  /** The local view is the initial empty one or a fetch result, and every array sent is the
      in-order image of a fetch result. */
  ghost predicate InventoryOk(v: Inventory) {
    && (if v.replaced then v.local in v.fetches else v.local == [])
    && forall i | 0 <= i < |v.posts| :: IsImageOfFetch(v, v.posts[i])
  }

  /** An action of one sync keeps the inventory sound, and every other sync with it. */
  lemma SyncMoveKeepsInventory(v: Inventory, pc: SyncPc, shutdown: bool, v': Inventory, pc': SyncPc, other: SyncPc)
    requires InventoryOk(v) && SyncOk(v, pc) && SyncOk(v, other) && SyncMove(v, pc, shutdown, v', pc')
    ensures InventoryOk(v') && SyncOk(v', pc') && SyncOk(v', other)
    ensures v.fetches <= v'.fetches && v.posts <= v'.posts && (v.replaced ==> v'.replaced)
    ensures pc == Fetching && !pc'.Fetched? ==> v' == v
  {
    hide Payload;
    forall i | 0 <= i < |v'.posts|
      ensures IsImageOfFetch(v', v'.posts[i])
    {
      if i < |v.posts| {
        assert IsImageOfFetch(v, v.posts[i]);
        var k :| 0 <= k < |v.fetches| && v.posts[i] == Payload(v.fetches[k]);
        assert v'.fetches[k] == v.fetches[k];
      } else {
        var k :| 0 <= k < |v.fetches| && v.fetches[k] == pc.hosts;
        assert v'.posts[i] == Payload(v'.fetches[k]);
      }
    }
    if pc'.Fetched? {
      assert v'.fetches[|v.fetches|] == pc'.hosts;
    }
  }

  // ---- one sync, imperatively ----

  /** How the dashboard answers `submit_discovered_hosts`: 2xx; 401; 400, 413 or another
      status; 429, 5xx or no answer. */
  datatype Outcome = Taken | AuthError | Refused | Retriable

  /** One round of the retry loop: shutdown read at its head, the call's outcome, and whether
      shutdown ends the wait. */
  datatype Call = Call(shutdown: bool, outcome: Outcome, woke: bool)

  class NetBoxHostsState {
    var hosts: seq<DiscoveredHost>

    constructor ()
      ensures hosts == []
    {
      hosts := [];
    }

    method Replace(latest: seq<DiscoveredHost>)
      modifies this
      ensures hosts == latest
    {
      hosts := latest;
    }

    method Snapshot() returns (r: seq<DiscoveredHost>)
      ensures r == hosts
    {
      r := hosts;
    }
  }

  /** What the rest of the process and the dashboard see of a sync. */
  class SyncEffects {
    var posts: seq<seq<Entry>>
    var lastSyncAt: Option<string>
  }

  function Copies<T>(x: T, n: nat): (r: seq<T>)
    ensures |r| == n && forall i | 0 <= i < n :: r[i] == x
  {
    seq(n, _ => x)
  }

  /** How the loop over `calls` ends after n rounds, read off the last of them: every round before it
      was retriable and not woken; shutdown at its head or during its wait, a 401, a refusal and
      success each have their own status, and only a round that would be retried, or none, leaves
      the sync unfinished. */
  ghost predicate CallsEnd(calls: seq<Call>, n: nat, status: SyncStatus) {
    && n <= |calls|
    && (forall j | 0 <= j < n - 1 :: !calls[j].shutdown && calls[j].outcome == Retriable && !calls[j].woke)
    && (n < |calls| ==> n > 0 && status != Unfinished)
    && if n == 0 then status == Unfinished
       else
         var c := calls[n - 1];
         && (status == ShutDown <==> c.shutdown || (c.outcome == Retriable && c.woke))
         && (status == AuthRaised <==> !c.shutdown && c.outcome == AuthError)
         && (status == SubmissionError <==> !c.shutdown && c.outcome == Refused)
         && (status == Success <==> !c.shutdown && c.outcome == Taken)
         && (status == Unfinished <==> !c.shutdown && c.outcome == Retriable && !c.woke)
  }

  /** Rounds among the first n that made a request; only the last may have made none. */
  function Requests(calls: seq<Call>, n: nat): nat
    requires n <= |calls|
  {
    if n == 0 then 0 else Requests(calls, n - 1) + (if calls[n - 1].shutdown then 0 else 1)
  }

  /** Rounds among the first n that waited. */
  function Waits(calls: seq<Call>, n: nat): nat
    requires n <= |calls|
  {
    if n == 0 then 0
    else Waits(calls, n - 1) + (if !calls[n - 1].shutdown && calls[n - 1].outcome.Retriable? then 1 else 0)
  }

  /** `_submit_with_retry`: every request carries the same hosts array, the waits follow the
      schedule, and the sync time is recorded on success only. */
  method SubmitWithRetry(hosts: seq<Entry>, syncedAt: string, calls: seq<Call>, e: SyncEffects, clock: FakeClock)
    returns (status: SyncStatus, n: nat)
    modifies e, clock
    ensures CallsEnd(calls, n, status)
    ensures e.posts == old(e.posts) + Copies(hosts, Requests(calls, n))
    ensures e.lastSyncAt == if status.Success? then Some(syncedAt) else old(e.lastSyncAt)
    ensures clock.sleeps == old(clock.sleeps) + Backoff.Delays(1, Waits(calls, n))
  {
    hide Backoff.Delay, Backoff.Delays;
    n, status := 0, Unfinished;
    Backoff.DelaysNext(1, 0);
    while n < |calls|
      invariant n <= |calls| && status == Unfinished
      invariant forall j | 0 <= j < n :: !calls[j].shutdown && calls[j].outcome == Retriable && !calls[j].woke
      invariant Requests(calls, n) == n && Waits(calls, n) == n
      invariant e.posts == old(e.posts) + Copies(hosts, n)
      invariant clock.sleeps == old(clock.sleeps) + Backoff.Delays(1, n)
      invariant e.lastSyncAt == old(e.lastSyncAt)
    {
      var c := calls[n];
      Backoff.DelaysNext(1, n);
      n := n + 1;
      if c.shutdown {
        return ShutDown, n;
      }
      e.posts := e.posts + [hosts];
      match c.outcome {
        case Taken =>
          e.lastSyncAt := Some(syncedAt);
          return Success, n;
        case AuthError =>
          return AuthRaised, n;
        case Refused =>
          return SubmissionError, n;
        case Retriable =>
          var woke := clock.WaitFor(Backoff.Delay(n), c.woke);
          if woke {
            return ShutDown, n;
          }
      }
    }
  }

  /** `run_netbox_sync`. A failed fetch (None) leaves everything alone and makes no call; after
      a successful one the local view is the fetch's result whatever the submission's fate,
      and what the dashboard was sent decodes to that result. */
  method RunNetboxSync(fetched: Option<seq<DiscoveredHost>>, syncedAt: string, calls: seq<Call>,
                       local: NetBoxHostsState, e: SyncEffects, clock: FakeClock)
    returns (status: SyncStatus, hostsCount: nat, n: nat)
    modifies local, e, clock
    ensures fetched.None? ==>
      && status == NetboxError && hostsCount == 0
      && local.hosts == old(local.hosts) && e.posts == old(e.posts)
      && e.lastSyncAt == old(e.lastSyncAt) && clock.sleeps == old(clock.sleeps)
    ensures fetched.Some? ==>
      && local.hosts == fetched.value && hostsCount == |fetched.value|
      && CallsEnd(calls, n, status)
      && e.posts == old(e.posts) + Copies(Payload(fetched.value), Requests(calls, n))
      && (e.lastSyncAt == if status.Success? then Some(syncedAt) else old(e.lastSyncAt))
      && clock.sleeps == old(clock.sleeps) + Backoff.Delays(1, Waits(calls, n))
  {
    hide CallsEnd, Requests, Waits, Payload, HostToPayload;
    if fetched.None? {
      return NetboxError, 0, 0;
    }
    local.Replace(fetched.value);
    hostsCount := |fetched.value|;
    status, n := SubmitWithRetry(Payload(fetched.value), syncedAt, calls, e, clock);
  }
}
