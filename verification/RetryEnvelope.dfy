/** How long an agent call on a model that never answers keeps a step, against the stall ceiling.
    Times are in half seconds, so that the client's 1.5 s of its own waits is whole. */
module RetryEnvelope {

  // Settings and their defaults, in seconds.
  const BACKUP_ENVELOPE_RETRIES: nat := 3
  const AGENT_NUM_RETRIES: nat := 8
  const RETRY_MAX_WAIT: nat := 120
  const REQUEST_TIMEOUT: nat := 120
  const STALL_FAIL_AFTER: nat := 1200

  function Pow2(n: nat): nat {
    if n == 0 then 1 else 2 * Pow2(n - 1)
  }

  function Min(a: nat, b: nat): nat {
    if a < b then a else b
  }

  function Max(a: nat, b: nat): nat {
    if a < b then b else a
  }

  /** The pause after attempt `i` (from 1): 8 s doubling, at most `cap`, at least 8. */
  function Wait(i: nat, cap: nat): nat
    requires i >= 1
  {
    Max(8, Min(cap, 8 * Pow2(i - 1)))
  }

  /** The pauses after the first `n` attempts. */
  function Waits(n: nat, cap: nat): nat {
    if n == 0 then 0 else Waits(n - 1, cap) + Wait(n, cap)
  }

  /** One attempt: three requests cut at the timeout, and the client's 0.5 s and 1 s between them. */
  function Attempt(timeout: nat): nat {
    6 * timeout + 3
  }

  /** The worst case of `n` attempts, in half seconds. */
  function Envelope(n: nat, timeout: nat, cap: nat): nat {
    n * Attempt(timeout) + 2 * Waits(if n == 0 then 0 else n - 1, cap)
  }

  predicate WithinCeiling(n: nat, timeout: nat, cap: nat, ceiling: nat) {
    Envelope(n, timeout, cap) < 2 * ceiling
  }

  // ----- closed form -----

  lemma {:induction false} Pow2Grows(a: nat, b: nat)
    requires a <= b
    ensures 1 <= Pow2(a) <= Pow2(b)
    decreases b
  {
    if a < b {
      Pow2Grows(a, b - 1);
    } else if b > 0 {
      Pow2Grows(a - 1, b - 1);
    }
  }

  /** While the pauses stay under the cap they sum to 8 · (2ⁿ − 1); from the first capped one on, each
      adds the cap. `m` is how many stay under. */
  lemma {:induction false} WaitsClosedForm(n: nat, m: nat, cap: nat)
    requires cap >= 8 && m <= n
    requires m > 0 ==> 8 * Pow2(m - 1) <= cap
    requires m < n ==> cap <= 8 * Pow2(m)
    ensures Waits(n, cap) == 8 * (Pow2(m) - 1) + (n - m) * cap
    decreases n
  {
    if n > 0 {
      if m == n {
        if n > 1 {
          Pow2Grows(n - 2, n - 1);
        }
        WaitsClosedForm(n - 1, n - 1, cap);
        assert Wait(n, cap) == 8 * Pow2(n - 1) by {
          Pow2Grows(0, n - 1);
        }
      } else {
        Pow2Grows(m, n - 1);
        WaitsClosedForm(n - 1, m, cap);
        assert Wait(n, cap) == cap;
        assert (n - m) * cap == (n - 1 - m) * cap + cap;
      }
    }
  }

  /** A cap below the minimum never applies: every pause is the minimum. */
  lemma {:induction false} WaitsAtMinimum(n: nat, cap: nat)
    requires cap <= 8
    ensures Waits(n, cap) == 8 * n
  {
    if n > 0 {
      WaitsAtMinimum(n - 1, cap);
    }
  }

  // ----- monotonicity -----

  lemma {:induction false} WaitsGrow(n: nat, n2: nat, cap: nat, cap2: nat)
    requires n <= n2 && cap <= cap2
    ensures Waits(n, cap) <= Waits(n2, cap2)
    ensures Waits(n, cap) + 8 * (n2 - n) <= Waits(n2, cap2)
    decreases n2
  {
    if n < n2 {
      WaitsGrow(n, n2 - 1, cap, cap2);
    } else if n > 0 {
      WaitsGrow(n - 1, n2 - 1, cap, cap2);
    }
  }

  lemma {:induction false} MulGrows(n: nat, n2: nat, a: nat, a2: nat)
    requires n <= n2 && a <= a2
    ensures n * a + (n2 - n) * a2 <= n2 * a2
  {
    assert n2 * a2 - (n2 - n) * a2 == n * a2;
    assert n * (a2 - a) >= 0;
  }

  /** More attempts, a longer timeout or a higher cap never shorten the envelope; another attempt
      lengthens it by at least the attempt itself. */
  lemma {:induction false} EnvelopeGrows(n: nat, n2: nat, timeout: nat, timeout2: nat, cap: nat, cap2: nat)
    requires n <= n2 && timeout <= timeout2 && cap <= cap2
    ensures Envelope(n, timeout, cap) + (n2 - n) * Attempt(timeout2) <= Envelope(n2, timeout2, cap2)
  {
    WaitsGrow(if n == 0 then 0 else n - 1, if n2 == 0 then 0 else n2 - 1, cap, cap2);
    MulGrows(n, n2, Attempt(timeout), Attempt(timeout2));
  }

  // ----- the ceiling -----

  lemma {:induction false} EnvelopeOfThree(timeout: nat, cap: nat)
    ensures Envelope(3, timeout, cap) == 18 * timeout + 9 + 2 * (8 + Max(8, Min(cap, 16)))
  {
    assert Pow2(0) == 1 && Pow2(1) == 2;
    assert Waits(1, cap) == Waits(0, cap) + Wait(1, cap);
    assert Waits(2, cap) == Waits(1, cap) + Wait(2, cap);
  }

  lemma {:induction false} EnvelopeOfFour(timeout: nat, cap: nat)
    ensures Envelope(4, timeout, cap) >= 24 * timeout + 60
  {
    WaitsGrow(0, 3, 0, cap);
  }

  /** With the defaults the envelope ends before the stall sweep exactly up to three attempts: with the
      backup envelope, not with the configured one. */
  lemma {:induction false} FitsIffAtMostThree(n: nat)
    ensures WithinCeiling(n, REQUEST_TIMEOUT, RETRY_MAX_WAIT, STALL_FAIL_AFTER) <==> n <= BACKUP_ENVELOPE_RETRIES
  {
    EnvelopeOfThree(REQUEST_TIMEOUT, RETRY_MAX_WAIT);
    EnvelopeOfFour(REQUEST_TIMEOUT, RETRY_MAX_WAIT);
    if n <= 3 {
      EnvelopeGrows(n, 3, REQUEST_TIMEOUT, REQUEST_TIMEOUT, RETRY_MAX_WAIT, RETRY_MAX_WAIT);
      assert (3 - n) * Attempt(REQUEST_TIMEOUT) >= 0;
    } else {
      EnvelopeGrows(4, n, REQUEST_TIMEOUT, REQUEST_TIMEOUT, RETRY_MAX_WAIT, RETRY_MAX_WAIT);
      assert (n - 4) * Attempt(REQUEST_TIMEOUT) >= 0;
    }
  }

  /** Three attempts stay within the default ceiling for every whole timeout up to 130 s, and with the
      pauses at their minimum up to 131 s; for no other. */
  lemma {:induction false} BackupFitsIff(timeout: nat, cap: nat)
    ensures WithinCeiling(BACKUP_ENVELOPE_RETRIES, timeout, cap, STALL_FAIL_AFTER) <==> timeout <= 130 || (timeout == 131 && cap <= 8)
  {
    EnvelopeOfThree(timeout, cap);
  }

  /** The attempts a task is given: the backup envelope exactly when a usable backup waits. */
  function AttemptsFor(usableBackup: bool, configured: nat): nat {
    if usableBackup then BACKUP_ENVELOPE_RETRIES else configured
  }

  /** With the defaults a hung model is given up before the sweep ends its step exactly when there is a
      backup to switch to. */
  lemma {:induction false} SwitchBeforeSweepIff(usableBackup: bool)
    ensures WithinCeiling(AttemptsFor(usableBackup, AGENT_NUM_RETRIES), REQUEST_TIMEOUT, RETRY_MAX_WAIT, STALL_FAIL_AFTER) <==> usableBackup
    ensures Envelope(AGENT_NUM_RETRIES, REQUEST_TIMEOUT, RETRY_MAX_WAIT) == 2 * 3372
    ensures Envelope(BACKUP_ENVELOPE_RETRIES, REQUEST_TIMEOUT, RETRY_MAX_WAIT) == 2217
  {
    FitsIffAtMostThree(AttemptsFor(usableBackup, AGENT_NUM_RETRIES));
    assert Pow2(4) == 16 && Pow2(3) == 8;
    WaitsClosedForm(7, 4, 120);
    EnvelopeOfThree(REQUEST_TIMEOUT, RETRY_MAX_WAIT);
  }
}
