/** How long the supervisor waits before it starts a plugin again. */
module Backoff {
  import opened Common
  import opened Settings

  // After this many seconds a failure no longer counts as linked to earlier ones.
  const RESET_FAILURE := 3600

  // The longest time between two start attempts of one plugin.
  const MAX_WAIT_TIME := 300

  function Pow2(n: nat): (p: nat)
    ensures p > 0
  {
    if n == 0 then 1 else 2 * Pow2(n - 1)
  }

  // The C expression 5 * (1 << (failures - 1)) on 32-bit int operands: None when
  // the shift or the product leaves the type, which C leaves undefined.
  function Penalty32(failures: nat): Option<int> {
    if failures == 0 then Some(0)
    else if failures - 1 > 30 then None
    else if 5 * Pow2(failures - 1) > INT_MAX then None
    else Some(5 * Pow2(failures - 1))
  }

  function WaitSeconds(failures: nat): Option<int> {
    match Penalty32(failures)
    case None => None
    case Some(w) => Some(if w > MAX_WAIT_TIME then MAX_WAIT_TIME else w)
  }

  lemma {:induction false} Pow2Monotone(m: nat, n: nat)
    requires m <= n
    ensures Pow2(m) <= Pow2(n)
    decreases n
  {
    if m < n {
      Pow2Monotone(m, n - 1);
    }
  }

  lemma WaitIsDefinedUpTo29(failures: nat)
    ensures WaitSeconds(failures).Some? <==> failures <= 29
  {
    assert Pow2(4) == 16 && Pow2(8) == 0x100 && Pow2(12) == 0x1000 && Pow2(16) == 0x1_0000;
    assert Pow2(20) == 0x10_0000 && Pow2(24) == 0x100_0000 && Pow2(28) == 0x1000_0000;
    if 1 <= failures <= 29 {
      Pow2Monotone(failures - 1, 28);
    } else if failures >= 30 {
      Pow2Monotone(29, failures - 1);
    }
  }

  // The wait for a failure count, without the machine's limits.
  function Wait(failures: nat): int {
    if failures == 0 then 0
    else if failures >= 7 then MAX_WAIT_TIME
    else 5 * Pow2(failures - 1)
  }

  lemma WaitIsExact(failures: nat)
    requires failures <= 29
    ensures WaitSeconds(failures) == Some(Wait(failures))
    ensures failures > 0 ==>
      Wait(failures) == if 5 * Pow2(failures - 1) < MAX_WAIT_TIME then 5 * Pow2(failures - 1) else MAX_WAIT_TIME
  {
    WaitIsDefinedUpTo29(failures);
    assert Pow2(5) == 32 && Pow2(6) == 64;
    if failures >= 7 {
      Pow2Monotone(6, failures - 1);
    } else if failures >= 1 {
      Pow2Monotone(failures - 1, 5);
    }
  }

  lemma WaitIsMonotone(m: nat, n: nat)
    requires m <= n <= 29
    ensures WaitSeconds(m).Some? && WaitSeconds(n).Some?
    ensures 0 <= WaitSeconds(m).value <= WaitSeconds(n).value <= MAX_WAIT_TIME
  {
    WaitIsExact(m);
    WaitIsExact(n);
    if 1 <= m {
      Pow2Monotone(m - 1, n - 1);
    }
  }

  // The seconds that pass at least while the failure count climbs from 0 to n.
  function TotalWait(n: nat): int {
    if n == 0 then 0 else TotalWait(n - 1) + Wait(n)
  }

  // How far short of MAX_WAIT_TIME those waits fall, all together.
  function Shortfall(n: nat): int {
    if n == 0 then 0 else Shortfall(n - 1) + MAX_WAIT_TIME - Wait(n)
  }

  lemma {:induction false} ShortfallBounds(n: nat)
    ensures 0 <= Shortfall(n) <= 1485
    ensures n >= 6 ==> Shortfall(n) == 1485
  {
    if n > 6 {
      ShortfallBounds(n - 1);
    } else {
      assert Shortfall(0) == 0 && Shortfall(1) == 295 && Shortfall(2) == 585 && Shortfall(3) == 865;
      assert Shortfall(4) == 1125 && Shortfall(5) == 1345 && Shortfall(6) == 1485;
    }
  }

  lemma {:induction false} TotalWaitBounds(n: nat)
    ensures TotalWait(n) >= 0
    ensures n >= 6 ==> TotalWait(n) == 315 + MAX_WAIT_TIME * (n - 6)
  {
    if n > 6 {
      TotalWaitBounds(n - 1);
    } else {
      assert TotalWait(0) == 0 && TotalWait(1) == 5 && TotalWait(2) == 15 && TotalWait(3) == 35;
      assert TotalWait(4) == 75 && TotalWait(5) == 155 && TotalWait(6) == 315;
    }
  }
}
