/** Why comparing timestamps as strings is comparing times: `utc_now_iso` (certwatch/clock.py)
    renders every field at a fixed width, most significant first (section 5.1 of RFC 3339). */
module Timestamps {
  import opened Wrappers
  import opened JsonValues
  import opened Files
  import opened PendingReports
  import opened Integers

  // ---- calendar time ----

  datatype Stamp = Stamp(year: nat, month: nat, day: nat, hour: nat, minute: nat, second: nat)

  predicate IsLeap(year: nat) {
    year % 4 == 0 && (year % 100 != 0 || year % 400 == 0)
  }

  function DaysInMonth(year: nat, month: nat): nat {
    if month == 2 then (if IsLeap(year) then 29 else 28)
    else if month in {4, 6, 9, 11} then 30
    else 31
  }

  /** A UTC time of day on a date of the Gregorian calendar; `%Y` has four digits from the
      year 1000 on. */
  predicate IsStamp(t: Stamp) {
    && 1000 <= t.year <= 9999 && 1 <= t.month <= 12 && 1 <= t.day <= DaysInMonth(t.year, t.month)
    && t.hour < 24 && t.minute < 60 && t.second < 60
  }

  function DaysBeforeYear(year: nat): nat {
    if year == 0 then 0 else DaysBeforeYear(year - 1) + (if IsLeap(year - 1) then 366 else 365)
  }

  function DaysBeforeMonth(year: nat, month: nat): nat {
    if month <= 1 then 0 else DaysBeforeMonth(year, month - 1) + DaysInMonth(year, month - 1)
  }

  function Days(year: nat, month: nat, day: nat): nat {
    DaysBeforeYear(year) + DaysBeforeMonth(year, month) + day
  }

  /** Seconds on the time line. */
  function Seconds(t: Stamp): nat {
    86400 * Days(t.year, t.month, t.day) + 3600 * t.hour + 60 * t.minute + t.second
  }

  /** The stamp one second later, with the carries of clock and calendar. */
  function Tick(t: Stamp): Stamp {
    if t.second < 59 then t.(second := t.second + 1)
    else if t.minute < 59 then t.(second := 0, minute := t.minute + 1)
    else if t.hour < 23 then t.(second := 0, minute := 0, hour := t.hour + 1)
    else
      var s := t.(second := 0, minute := 0, hour := 0);
      if t.day < DaysInMonth(t.year, t.month) then s.(day := t.day + 1)
      else if t.month < 12 then s.(day := 1, month := t.month + 1)
      else s.(day := 1, month := 1, year := t.year + 1)
  }

  /** `Seconds` is the number of ticks: each tick of the calendar moves it by one. */
  lemma TickIsOneSecond(t: Stamp)
    requires IsStamp(t)
    ensures Seconds(Tick(t)) == Seconds(t) + 1
  {
    assert 3600 * 23 + 60 * 59 + 59 + 1 == 86400;
    if t.month == 12 {
      YearIsItsMonths(t.year);
    }
  }

  lemma YearIsItsMonths(year: nat)
    ensures DaysBeforeMonth(year, 12) + 31 == if IsLeap(year) then 366 else 365
  {
    var feb := DaysInMonth(year, 2);
    assert DaysBeforeMonth(year, 2) == 31;
    assert DaysBeforeMonth(year, 3) == 31 + feb;
    assert DaysBeforeMonth(year, 5) == 92 + feb by { assert DaysBeforeMonth(year, 4) == 62 + feb; }
    assert DaysBeforeMonth(year, 7) == 153 + feb by { assert DaysBeforeMonth(year, 6) == 123 + feb; }
    assert DaysBeforeMonth(year, 9) == 215 + feb by { assert DaysBeforeMonth(year, 8) == 184 + feb; }
    assert DaysBeforeMonth(year, 11) == 276 + feb by { assert DaysBeforeMonth(year, 10) == 245 + feb; }
  }

  // ---- order of the fields ----

  /** Field by field, the most significant first. */
  predicate Earlier(s: Stamp, t: Stamp) {
    || s.year < t.year
    || (s.year == t.year && (s.month < t.month
    || (s.month == t.month && (s.day < t.day
    || (s.day == t.day && (s.hour < t.hour
    || (s.hour == t.hour && (s.minute < t.minute
    || (s.minute == t.minute && s.second < t.second)))))))))
  }

  lemma {:induction false} MonthsGrow(year: nat, month: nat, month': nat)
    requires 1 <= month < month'
    ensures DaysBeforeMonth(year, month) + DaysInMonth(year, month) <= DaysBeforeMonth(year, month')
  {
    if month + 1 < month' {
      MonthsGrow(year, month, month' - 1);
    }
  }

  lemma {:induction false} YearsGrow(year: nat, year': nat)
    requires year < year'
    ensures DaysBeforeYear(year) + (if IsLeap(year) then 366 else 365) <= DaysBeforeYear(year')
  {
    if year + 1 < year' {
      YearsGrow(year, year' - 1);
    }
  }

  lemma DateFitsYear(year: nat, month: nat, day: nat)
    requires 1 <= month <= 12 && 1 <= day <= DaysInMonth(year, month)
    ensures DaysBeforeMonth(year, month) + day <= if IsLeap(year) then 366 else 365
  {
    YearIsItsMonths(year);
    if month < 12 {
      MonthsGrow(year, month, 12);
    }
  }

  lemma EarlierIsSooner(s: Stamp, t: Stamp)
    requires IsStamp(s) && IsStamp(t) && Earlier(s, t)
    ensures Seconds(s) < Seconds(t)
  {
    var a, b := Days(s.year, s.month, s.day), Days(t.year, t.month, t.day);
    if s.year < t.year {
      DateFitsYear(s.year, s.month, s.day);
      YearsGrow(s.year, t.year);
      assert a < b;
    } else if s.month < t.month {
      MonthsGrow(s.year, s.month, t.month);
      assert a < b;
    }
  }

  // ---- rendering ----

  /** The last w decimal digits of n, zero-padded. */
  function Pad(n: nat, w: nat): (r: string)
    ensures |r| == w
  {
    if w == 0 then "" else Pad(n / 10, w - 1) + [Digit(n % 10)]
  }

  /** `strftime("%Y-%m-%dT%H:%M:%SZ")`. */
  function Render(t: Stamp): string {
    Pad(t.year, 4) + "-" + Clip(t)
  }

  function Clip(t: Stamp): string {
    Pad(t.month, 2) + "-" + (Pad(t.day, 2) + "T" + Daytime(t))
  }

  function Daytime(t: Stamp): string {
    Pad(t.hour, 2) + ":" + (Pad(t.minute, 2) + ":" + (Pad(t.second, 2) + "Z"))
  }

  function Power10(w: nat): nat {
    if w == 0 then 1 else 10 * Power10(w - 1)
  }

  /** Strings of equal length are compared by their heads first, then by what follows. */
  lemma {:induction false} LessOfConcat(a: string, b: string, x: string, y: string)
    requires |a| == |b|
    ensures Less(a + x, b + y) <==> Less(a, b) || (a == b && Less(x, y))
  {
    if a == "" {
      assert a + x == x && b + y == y;
    } else {
      assert (a + x)[1..] == a[1..] + x && (b + y)[1..] == b[1..] + y;
      LessOfConcat(a[1..], b[1..], x, y);
      assert a == [a[0]] + a[1..] && b == [b[0]] + b[1..];
    }
  }

  /** Fixed-width decimals are ordered as the numbers they render. */
  lemma {:induction false} PadOrder(n: nat, m: nat, w: nat)
    requires n < Power10(w) && m < Power10(w)
    ensures Less(Pad(n, w), Pad(m, w)) <==> n < m
    ensures Pad(n, w) == Pad(m, w) <==> n == m
  {
    if w > 0 {
      PadOrder(n / 10, m / 10, w - 1);
      var a, b, x, y := Pad(n / 10, w - 1), Pad(m / 10, w - 1), [Digit(n % 10)], [Digit(m % 10)];
      LessOfConcat(a, b, x, y);
      assert x[0] < y[0] <==> n % 10 < m % 10;
      assert (a + x)[..w - 1] == a && (b + y)[..w - 1] == b;
      assert (a + x)[w - 1] == x[0] && (b + y)[w - 1] == y[0];
    }
  }

  /** One field, a separator, and the rest. */
  lemma FieldOrder(n: nat, m: nat, w: nat, sep: char, x: string, y: string)
    requires n < Power10(w) && m < Power10(w)
    ensures Less(Pad(n, w) + [sep] + x, Pad(m, w) + [sep] + y) <==> n < m || (n == m && Less(x, y))
  {
    hide Less, Pad;
    PadOrder(n, m, w);
    assert Pad(n, w) + [sep] + x == Pad(n, w) + ([sep] + x);
    assert Pad(m, w) + [sep] + y == Pad(m, w) + ([sep] + y);
    LessOfConcat(Pad(n, w), Pad(m, w), [sep] + x, [sep] + y);
    LessOfConcat([sep], [sep], x, y);
    LessIrreflexive([sep]);
  }

  lemma {:induction false} LessIrreflexive(a: string)
    ensures !Less(a, a)
  {
    if a != "" {
      LessIrreflexive(a[1..]);
    }
  }

  lemma {:induction false} LessTransitive(a: string, b: string, c: string)
    requires Less(a, b) && Less(b, c)
    ensures Less(a, c)
  {
    if a != "" && a[0] == b[0] && b[0] == c[0] {
      LessTransitive(a[1..], b[1..], c[1..]);
    }
  }

  lemma RenderOrder(s: Stamp, t: Stamp)
    requires IsStamp(s) && IsStamp(t)
    ensures Less(Render(s), Render(t)) <==> Earlier(s, t)
  {
    hide Pad, Less;
    assert Power10(1) == 10 && Power10(2) == 100 && Power10(3) == 1000 && Power10(4) == 10000;
    FieldOrder(s.year, t.year, 4, '-', Clip(s), Clip(t));
    FieldOrder(s.month, t.month, 2, '-', Pad(s.day, 2) + "T" + Daytime(s), Pad(t.day, 2) + "T" + Daytime(t));
    FieldOrder(s.day, t.day, 2, 'T', Daytime(s), Daytime(t));
    var sm, tm := Pad(s.minute, 2) + ":" + (Pad(s.second, 2) + "Z"), Pad(t.minute, 2) + ":" + (Pad(t.second, 2) + "Z");
    FieldOrder(s.hour, t.hour, 2, ':', sm, tm);
    FieldOrder(s.minute, t.minute, 2, ':', Pad(s.second, 2) + "Z", Pad(t.second, 2) + "Z");
    assert Pad(s.second, 2) + ['Z'] + "" == Pad(s.second, 2) + "Z" && Pad(t.second, 2) + ['Z'] + "" == Pad(t.second, 2) + "Z";
    FieldOrder(s.second, t.second, 2, 'Z', "", "");
    LessIrreflexive("");
  }

  /** The comparison every timestamp test relies on: string order is the order of time. */
  lemma RenderIsChronological(s: Stamp, t: Stamp)
    requires IsStamp(s) && IsStamp(t)
    ensures Less(Render(s), Render(t)) <==> Seconds(s) < Seconds(t)
    ensures Render(s) == Render(t) <==> Seconds(s) == Seconds(t)
  {
    hide Render, Seconds, Less;
    RenderOrder(s, t);
    RenderOrder(t, s);
    LessIrreflexive(Render(s));
    if Earlier(s, t) {
      EarlierIsSooner(s, t);
    } else if Earlier(t, s) {
      EarlierIsSooner(t, s);
    } else {
      assert s == t;
    }
  }

  // ---- what the agent decides with it ----

  /** `expires_at and expires_at < now_iso`; an absent or null `expires_at` is None. */
  predicate Expired(expiresAt: Option<string>, nowIso: string) {
    expiresAt.Some? && expiresAt.value != "" && Less(expiresAt.value, nowIso)
  }

  /** An action is dropped exactly when its expiry time has passed; one without an expiry never is. */
  lemma ExpiryIsRealTime(expires: Stamp, now: Stamp)
    requires IsStamp(expires) && IsStamp(now)
    ensures Expired(Some(Render(expires)), Render(now)) <==> Seconds(expires) < Seconds(now)
    ensures !Expired(None, Render(now)) && !Expired(Some(""), Render(now))
  {
    hide Less, Seconds;
    RenderIsChronological(expires, now);
  }

  /** Whatever the dashboard sent as `expires_at`, an action the heartbeat drops would also be
      dropped by a worker at any later time: filtering at enqueue loses no work. */
  lemma DroppedStaysDropped(expiresAt: Option<string>, enqueue: Stamp, pickup: Stamp)
    requires IsStamp(enqueue) && IsStamp(pickup) && Seconds(enqueue) <= Seconds(pickup)
    requires Expired(expiresAt, Render(enqueue))
    ensures Expired(expiresAt, Render(pickup))
  {
    hide Less, Seconds, Render;
    RenderIsChronological(enqueue, pickup);
    if Seconds(enqueue) < Seconds(pickup) {
      LessTransitive(expiresAt.value, Render(enqueue), Render(pickup));
    }
  }

  /** Replay skips a report as an orphan exactly when it was saved before the registration
      that owns the credentials. */
  lemma OrphanMeansOlderRegistration(d: Directory, name: Name, record: Object, saved: Stamp, registered: Stamp)
    requires IsStamp(saved) && IsStamp(registered)
    requires name in d && Load(d[name].content) == Some(record)
    requires Get(record, PersistedAtKey, Null) == Str(Render(saved))
    ensures Decide(d, name, Render(registered)).Orphan? <==> Seconds(saved) < Seconds(registered)
    ensures !Decide(d, name, Render(registered)).Orphan? ==> Decide(d, name, Render(registered)) == Resubmit(record)
  {
    hide Less, Seconds;
    RenderIsChronological(saved, registered);
    assert Render(saved)[4] == '-';
  }
}
