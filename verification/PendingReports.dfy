/** The on-disk queue of pending reports (certwatch/pending_reports.py): record shape,
    wire payload, attempt counter, listing order and the replay decision per file. */
module PendingReports {
  import opened Wrappers
  import opened JsonValues
  import opened Files
  import Integers

  const WIRE_FIELDS: seq<Key> :=
    [ReportIdKey, ReportTypeKey, StartedAtKey, CompletedAtKey, ActionIdKey, ChecksKey]

  // ---- records ----

  predicate HasKey(m: Object, k: Key) {
    k in m.fields
  }

  function Get(m: Object, k: Key, default: Json): Json {
    if k in m.fields then m.fields[k] else default
  }

  function Put(m: Object, k: Key, v: Json): Object {
    Object(m.fields[k := v])
  }

  /** The object has exactly the six fields `submit_report_with_retry` fills in. */
  ghost predicate IsWire(p: Object) {
    forall k :: k in p.fields <==> k in WIRE_FIELDS
  }

  /** A submit_report body for `id`. */
  ghost predicate IsPayload(p: Object, id: string) {
    id != "" && IsWire(p) && Get(p, ReportIdKey, Null) == Str(id)
  }

  /** `save_pending_report`'s record: the payload and two agent-side fields. */
  function Persisted(payload: Object, at: string): Object {
    Put(Put(payload, PersistedAtKey, Str(at)), AttemptsKey, Num(0))
  }

  /** `int(data.get("_attempts", 0))`, None when it raises. */
  function Attempts(m: Object): Option<int> {
    IntOf(Get(m, AttemptsKey, Num(0)))
  }

  /** The record `increment_attempts` writes back. */
  function Bump(m: Object): Object
    requires Attempts(m).Some?
  {
    Put(m, AttemptsKey, Num(Attempts(m).value + 1))
  }

  function Bumps(m: Object, n: nat): (r: Object)
    requires Attempts(m).Some?
    ensures Attempts(r) == Some(Attempts(m).value + n)
    ensures forall k | k != AttemptsKey :: HasKey(r, k) == HasKey(m, k) && Get(r, k, Null) == Get(m, k, Null)
  {
    if n == 0 then m else Bump(Bumps(m, n - 1))
  }

  function Keep(fields: map<Key, Json>, keys: seq<Key>): map<Key, Json> {
    if keys == [] then map[]
    else
      var rest := Keep(fields, keys[..|keys| - 1]);
      var k := keys[|keys| - 1];
      if k in fields then rest[k := fields[k]] else rest
  }

  /** `{k: persisted[k] for k in _WIRE_FIELDS if k in persisted}`. */
  function WirePayload(m: Object): Object {
    Object(Keep(m.fields, WIRE_FIELDS))
  }

  lemma {:induction false} KeepSpec(fields: map<Key, Json>, keys: seq<Key>)
    ensures forall k :: k in Keep(fields, keys) <==> k in keys && k in fields
    ensures forall k | k in Keep(fields, keys) :: Keep(fields, keys)[k] == fields[k]
  {
    if keys != [] {
      KeepSpec(fields, keys[..|keys| - 1]);
      assert keys == keys[..|keys| - 1] + [keys[|keys| - 1]];
    }
  }

  /** Rewriting the counter never changes what goes on the wire. */
  lemma BumpKeepsWire(m: Object)
    requires Attempts(m).Some?
    ensures WirePayload(Bump(m)) == WirePayload(m)
    ensures Attempts(Bump(m)) == Some(Attempts(m).value + 1)
  {
    KeepSpec(m.fields, WIRE_FIELDS);
    KeepSpec(Bump(m).fields, WIRE_FIELDS);
    assert WirePayload(Bump(m)).fields == WirePayload(m).fields;
  }

  lemma PersistedKeepsWire(p: Object, at: string)
    requires IsWire(p)
    ensures WirePayload(Persisted(p, at)) == p && Attempts(Persisted(p, at)) == Some(0)
  {
    KeepSpec(Persisted(p, at).fields, WIRE_FIELDS);
    assert WirePayload(Persisted(p, at)).fields == p.fields;
  }

  /** Round trip: after a save and any number of bumps, what replay reads back as the wire
      payload is the payload first submitted, and the counter is the number of bumps. */
  lemma {:induction false} WireRoundTrip(p: Object, at: string, n: nat)
    requires IsWire(p)
    ensures Attempts(Persisted(p, at)) == Some(0)
    ensures WirePayload(Bumps(Persisted(p, at), n)) == p
    ensures Attempts(Bumps(Persisted(p, at), n)) == Some(n)
  {
    PersistedKeepsWire(p, at);
    if n > 0 {
      WireRoundTrip(p, at, n - 1);
      BumpKeepsWire(Bumps(Persisted(p, at), n - 1));
    }
  }

  /** The keys `_retry_loop_for_path` indexes directly; a missing one raises KeyError. */
  predicate HasRequired(wire: Object) {
    {ReportIdKey, ReportTypeKey, StartedAtKey, CompletedAtKey} <= wire.fields.Keys
  }

  /** The body `submit_report` sends for a wire payload. */
  function Body(wire: Object): Object
    requires HasRequired(wire)
  {
    var w := wire.fields;
    Object(map[ReportIdKey := w[ReportIdKey], ReportTypeKey := w[ReportTypeKey],
               StartedAtKey := w[StartedAtKey], CompletedAtKey := w[CompletedAtKey],
               ActionIdKey := Get(wire, ActionIdKey, Null),
               ChecksKey := Get(wire, ChecksKey, Arr([]))])
  }

  /** The four fields indexed directly must be there; the other two have defaults, and nothing
      else is sent. */
  lemma BodyFillsDefaults(wire: Object)
    ensures HasRequired(wire) <==>
      HasKey(wire, ReportIdKey) && HasKey(wire, ReportTypeKey) && HasKey(wire, StartedAtKey) && HasKey(wire, CompletedAtKey)
    ensures HasRequired(wire) ==>
      && IsWire(Body(wire))
      && (forall k | k in WIRE_FIELDS && HasKey(wire, k) :: Body(wire).fields[k] == wire.fields[k])
      && (!HasKey(wire, ActionIdKey) ==> Body(wire).fields[ActionIdKey] == Null)
      && (!HasKey(wire, ChecksKey) ==> Body(wire).fields[ChecksKey] == Arr([]))
  {
  }

  /** A counter stored as text counts as the number it spells and is written back as one. */
  lemma TextCounterCounts(m: Object, n: int)
    requires HasKey(m, AttemptsKey) && Get(m, AttemptsKey, Null) == Str(Integers.Decimal(n))
    ensures Attempts(m) == Some(n) && Get(Bump(m), AttemptsKey, Null) == Num(n + 1)
  {
    hide Integers.IntegerOf, Integers.Decimal;
    Integers.IntegerOfDecimal(n);
  }

  lemma BodyOfPayload(p: Object)
    requires IsWire(p)
    ensures HasRequired(p) && Body(p) == p
  {
    assert Body(p).fields == p.fields;
  }

  /** `load_pending_report`: None when it raises, for a root that is no object too. */
  function Load(c: Content): Option<Object> {
    match c
    case Whole(Obj(m)) => Some(m)
    case _ => None
  }

  // ---- string order, as Python compares str ----

  predicate Less(a: string, b: string) {
    b != "" && (a == "" || a[0] < b[0] || (a[0] == b[0] && Less(a[1..], b[1..])))
  }

  /** At the first place where two strings differ the lower code point decides, and a proper prefix
      comes first. */
  lemma {:induction false} LessIff(a: string, b: string)
    ensures Less(a, b) <==>
      exists k | 0 <= k <= |a| && k <= |b| ::
        a[..k] == b[..k] && (if k < |a| then k < |b| && a[k] < b[k] else k < |b|)
  {
    if a == "" || b == "" || a[0] != b[0] {
      assert a[..0] == b[..0];
      assert forall k | 0 < k <= |a| && k <= |b| :: a[..k] == b[..k] ==> a[..k][0] == b[..k][0];
    } else {
      var x, y := a[1..], b[1..];
      LessIff(x, y);
      if k :| 0 <= k <= |x| && k <= |y| && x[..k] == y[..k] && (if k < |x| then k < |y| && x[k] < y[k] else k < |y|) {
        assert a[..k + 1] == [a[0]] + x[..k] && b[..k + 1] == [b[0]] + y[..k];
        assert a[..k + 1] == b[..k + 1];
      }
      if k :| 0 <= k <= |a| && k <= |b| && a[..k] == b[..k] && (if k < |a| then k < |b| && a[k] < b[k] else k < |b|) {
        assert k > 0;
        assert x[..k - 1] == a[..k][1..] && y[..k - 1] == b[..k][1..];
      }
    }
  }

  // ---- the replay decision ----

  datatype Decision =
    | Missing
    | CorruptFile
    | Unhandled               // UnicodeDecodeError, or TypeError: `_persisted_at` is truthy and no string
    | Orphan
    | Resubmit(record: Object)

  function Decide(d: Directory, name: Name, registeredAt: string): Decision {
    if name !in d then Missing
    else if d[name].content.Undecodable? then Unhandled
    else match Load(d[name].content)
      case None => CorruptFile
      case Some(m) =>
        var persistedAt := Get(m, PersistedAtKey, Str(""));
        if !Truthy(persistedAt) then Resubmit(m)
        else match persistedAt
          case Str(at) => if Less(at, registeredAt) then Orphan else Resubmit(m)
          case _ => Unhandled
  }

  /** What replay makes of a file, case by case: undecodable bytes and a truthy `_persisted_at`
      that is no string raise; text that does not parse and a root that is no object are
      corrupt; a string before the registration, in the order of `str`, marks an orphan; an
      absent or falsy one never does. */
  lemma DecideIff(d: Directory, name: Name, registeredAt: string)
    requires name in d
    ensures var c, decision := d[name].content, Decide(d, name, registeredAt);
      && (decision.CorruptFile? <==> c.Torn? || (c.Whole? && !c.value.Obj?))
      && (c.Undecodable? ==> decision.Unhandled?)
      && (c.Whole? && c.value.Obj? ==>
            var m := c.value.entries;
            var at := Get(m, PersistedAtKey, Null);
            && (decision.Orphan? <==> at.Str? && at.s != "" && Less(at.s, registeredAt))
            && (decision.Unhandled? <==>
                  at != Null && at != Bool(false) && at != Num(0) && at != Float(Finite(0.0)) && at != Arr([])
                  && at != Obj(Object(map[])) && !at.Str?)
            && (decision == Resubmit(m) <==> !decision.Orphan? && !decision.Unhandled?))
  {
    hide Less;
  }

  // ---- listing ----

  /** Every listed name is in the directory, and modification times never decrease. */
  ghost predicate MtimeSorted(d: Directory, names: seq<Name>) {
    && (forall n | n in names :: n in d)
    && forall i, j | 0 <= i < j < |names| :: d[names[i]].mtime <= d[names[j]].mtime
  }

  function Insert(d: Directory, name: Name, names: seq<Name>): (r: seq<Name>)
    requires name in d && forall n | n in names :: n in d
    ensures multiset(r) == multiset(names) + multiset{name}
    ensures forall n | n in r :: n in d
  {
    if names == [] || d[name].mtime <= d[names[0]].mtime then
      [name] + names
    else
      assert names == [names[0]] + names[1..];
      var rest := Insert(d, name, names[1..]);
      assert forall n | n in rest :: n in multiset(rest);
      [names[0]] + rest
  }

  /** `files.sort(key=mtime)`. */
  function SortByMtime(d: Directory, names: seq<Name>): (r: seq<Name>)
    requires forall n | n in names :: n in d
    ensures multiset(r) == multiset(names)
    ensures forall n | n in r :: n in d
  {
    if names == [] then []
    else
      assert names == [names[0]] + names[1..];
      Insert(d, names[0], SortByMtime(d, names[1..]))
  }

  lemma OldestFirst(d: Directory, name: Name, names: seq<Name>)
    requires name in d && MtimeSorted(d, names) && forall n | n in names :: d[name].mtime <= d[n].mtime
    ensures MtimeSorted(d, [name] + names)
  {
    var r := [name] + names;
    forall i, j | 0 <= i < j < |r|
      ensures d[r[i]].mtime <= d[r[j]].mtime
    {
      assert r[j] == names[j - 1];
    }
  }

  lemma InsertHas(d: Directory, name: Name, names: seq<Name>)
    requires name in d && forall n | n in names :: n in d
    ensures forall n :: n in Insert(d, name, names) <==> n == name || n in names
  {
    var r := Insert(d, name, names);
    assert forall n :: n in r <==> n in multiset(r);
    assert forall n :: n in names <==> n in multiset(names);
  }

  lemma {:induction false} InsertSorts(d: Directory, name: Name, names: seq<Name>)
    requires name in d && MtimeSorted(d, names)
    ensures MtimeSorted(d, Insert(d, name, names))
  {
    if names == [] {
      OldestFirst(d, name, names);
    } else if d[name].mtime <= d[names[0]].mtime {
      OldestFirst(d, name, names);
    } else {
      var rest := names[1..];
      assert MtimeSorted(d, rest);
      InsertSorts(d, name, rest);
      InsertHas(d, name, rest);
      OldestFirst(d, names[0], Insert(d, name, rest));
    }
  }

  lemma {:induction false} SortByMtimeSorts(d: Directory, names: seq<Name>)
    requires forall n | n in names :: n in d
    ensures MtimeSorted(d, SortByMtime(d, names))
  {
    if names != [] {
      SortByMtimeSorts(d, names[1..]);
      InsertSorts(d, names[0], SortByMtime(d, names[1..]));
    }
  }

  /** Each name occurs once. */
  ghost predicate NoRepeats(names: seq<Name>) {
    forall n | n in names :: multiset(names)[n] == 1
  }

  /** An `iterdir` enumeration of d: each name once, in any order. */
  ghost predicate IsEnumeration(d: Directory, order: seq<Name>) {
    && (forall n :: n in order <==> n in d)
    && NoRepeats(order)
  }

  /** The names of a directory scan that `list_pending_report_paths` keeps. */
  function OnlyJson(order: seq<Name>): (r: seq<Name>)
    ensures forall n :: n in r <==> n in order && IsJson(n)
    ensures multiset(r) <= multiset(order)
  {
    if order == [] then []
    else
      var rest := OnlyJson(order[..|order| - 1]);
      var last := order[|order| - 1];
      assert order == order[..|order| - 1] + [last];
      if IsJson(last) then rest + [last] else rest
  }

  /** `list_pending_report_paths` for a given `iterdir` order. */
  function Listing(d: Directory, order: seq<Name>): seq<Name>
    requires forall n | n in order :: n in d
  {
    SortByMtime(d, OnlyJson(order))
  }

  /** The listing holds each `.json` file of the directory once, oldest write first. */
  lemma ListingSpec(d: Directory, order: seq<Name>)
    requires IsEnumeration(d, order)
    ensures forall n :: n in Listing(d, order) <==> n in d && IsJson(n)
    ensures NoRepeats(Listing(d, order))
    ensures MtimeSorted(d, Listing(d, order))
  {
    var js := OnlyJson(order);
    var r := Listing(d, order);
    SortByMtimeSorts(d, js);
    assert multiset(r) == multiset(js);
    assert forall n :: n in r <==> n in multiset(r);
    assert forall n :: n in js <==> n in multiset(js);
  }
}
