/** The retry schedule shared by report submission, discovered-hosts submission and
    registration: 5, 15, 30, 60, 120 seconds, then 120 for ever. */
module Backoff {

  const SCHEDULE: seq<nat> := [5, 15, 30, 60, 120]

  function Min(a: int, b: int): int { if a < b then a else b }

  function Max(a: int, b: int): int { if a < b then b else a }

  /** Seconds to wait once `attempts` calls have been made. */
  function Delay(attempts: int): nat {
    SCHEDULE[Max(0, Min(attempts - 1, |SCHEDULE| - 1))]
  }

  /** The schedule in seconds. */
  lemma DelayIs(attempts: int)
    ensures Delay(attempts) ==
      if attempts <= 1 then 5 else if attempts == 2 then 15 else if attempts == 3 then 30 else if attempts == 4 then 60 else 120
  {
  }

  lemma DelayMonotone(a: int, b: int)
    requires a <= b
    ensures Delay(a) <= Delay(b)
  {
  }

  /** The delays requested by n consecutive retries when `first` calls came before. */
  function Delays(first: int, n: nat): seq<nat> {
    seq<nat>(n, (i: nat) => Delay(first + i))
  }

  lemma DelaysNext(first: int, n: nat)
    ensures Delays(first, n + 1) == Delays(first, n) + [Delay(first + n)] && Delays(first, 0) == []
  {
  }

  function Sum(s: seq<nat>): nat {
    if s == [] then 0 else Sum(s[..|s| - 1]) + s[|s| - 1]
  }

  /** A report that has waited n >= 5 times in its first life has waited 230 + 120(n - 5)
      seconds in all. */
  lemma {:induction false} TotalWait(n: nat)
    requires n >= 5
    ensures Sum(Delays(1, n)) == 230 + 120 * (n - 5)
    decreases n
  {
    var s := Delays(1, n);
    assert s[..n - 1] == Delays(1, n - 1);
    if n == 5 {
      assert s == [5, 15, 30, 60, 120];
      assert s[..4] == [5, 15, 30, 60] && s[..4][..3] == [5, 15, 30];
      assert s[..4][..3][..2] == [5, 15] && s[..4][..3][..2][..1] == [5];
      assert Sum([5]) == 5;
      assert Sum([5, 15]) == 20;
      assert Sum([5, 15, 30]) == 50;
      assert Sum([5, 15, 30, 60]) == 110;
    } else {
      TotalWait(n - 1);
    }
  }
}
