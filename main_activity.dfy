/** The SDK start-up in MainActivity.onCreate: up to five `sdkInit` attempts, stopping at the
    first that returns OK; a power-on and a 3000 ms wait before the second attempt and a
    2000 ms wait before each later one. The five guarded blocks of the source are one
    bounded loop here. */
module MainActivity {
  import opened Vendor

  const MaxAttempts: nat := 5

  /** The status attempt `k` (from 1) gets, when the start-up's first `sdkInit` is call
      number `base` of the device. */
  function Reply(reply: nat -> int, base: nat, k: nat): int
    requires k >= 1
  {
    reply(base + k - 1)
  }

  /** The device calls that precede attempt `a`. */
  function DelayBefore(a: nat): seq<Event> {
    if a <= 1 then [] else if a == 2 then [PowerOn, Event.Sleep(3000)] else [Event.Sleep(2000)]
  }

  /** The device calls of the first `n` attempts. */
  function Attempts(reply: nat -> int, base: nat, n: nat): seq<Event> {
    if n == 0 then [] else Attempts(reply, base, n - 1) + DelayBefore(n) + [SdkInit(Reply(reply, base, n))]
  }

  /** How many attempts are made from attempt `a` on: the chain stops at the first OK
      status or after attempt five. */
  function Tried(sdkOk: int, reply: nat -> int, base: nat, a: nat): (n: nat)
    requires 1 <= a <= MaxAttempts
    ensures a <= n <= MaxAttempts
    decreases MaxAttempts - a
  {
    if Reply(reply, base, a) == sdkOk || a == MaxAttempts then a else Tried(sdkOk, reply, base, a + 1)
  }

  /** The retry chain of `onCreate`. Returns the final status and whether the
      "failed after multiple attempts" error is reported. */
  method InitSdk(device: Device) returns (status: int, failureReported: bool)
    modifies device`log, device`inits, device`powerOns
    ensures var base := old(device.inits);
      var n := Tried(device.sdkOk, device.initReply, base, 1);
      && device.log == old(device.log) + Attempts(device.initReply, base, n)
      && device.inits == base + n
      && device.powerOns == old(device.powerOns) + (if n >= 2 then 1 else 0)
      && status == Reply(device.initReply, base, n)
    ensures failureReported <==> status != device.sdkOk
  {
    ghost var base := device.inits;
    ghost var ok, reply := device.sdkOk, device.initReply;
    status := device.SdkInitCall();
    assert device.log == old(device.log) + Attempts(reply, base, 1);
    var attempt := 1;
    while status != device.sdkOk && attempt < MaxAttempts
      invariant 1 <= attempt <= MaxAttempts
      invariant device.inits == base + attempt
      invariant device.powerOns == old(device.powerOns) + (if attempt >= 2 then 1 else 0)
      invariant status == Reply(reply, base, attempt)
      invariant device.log == old(device.log) + Attempts(reply, base, attempt)
      invariant Tried(ok, reply, base, attempt) == Tried(ok, reply, base, 1)
      decreases MaxAttempts - attempt
    {
      status := Retry(device, attempt + 1);
      attempt := attempt + 1;
    }
    failureReported := status != device.sdkOk;
  }

  /** Attempt `a` after a failed one: the delay that precedes it, then `sdkInit`. */
  method Retry(device: Device, a: nat) returns (status: int)
    requires 2 <= a
    modifies device`log, device`inits, device`powerOns
    ensures status == old(device.NextInit(0))
    ensures device.inits == old(device.inits) + 1
    ensures device.powerOns == old(device.powerOns) + (if a == 2 then 1 else 0)
    ensures device.log == old(device.log) + (DelayBefore(a) + [SdkInit(status)])
  {
    if a == 2 {
      device.SysPowerOn();
      device.Sleep(3000);
    } else {
      device.Sleep(2000);
    }
    assert device.log == old(device.log) + DelayBefore(a);
    status := device.SdkInitCall();
  }

  /** Where attempt `k` (from 1) and the wait before it stand in the trace. */
  function CallIndex(k: nat): nat {
    if k <= 1 then 0 else 2 * k - 1
  }

  function SleepIndex(k: nat): nat {
    if k <= 1 then 0 else 2 * k - 2
  }

  /** The wait before attempt `k >= 2`. */
  function DelayMillis(k: nat): nat {
    if k == 2 then 3000 else 2000
  }

  /** How many calls of kind `k` the first `n` attempts make. */
  function CallsOf(n: nat, k: Kind): nat {
    match k
    case InitCall => n
    case PowerOnCall => if n >= 2 then 1 else 0
    case SleepCall => if n >= 1 then n - 1 else 0
    case _ => 0
  }

  lemma DelayCount(a: nat, k: Kind)
    requires a >= 1
    ensures Count(DelayBefore(a), k) + (if k == InitCall then 1 else 0) + CallsOf(a - 1, k) == CallsOf(a, k)
  {
    if a == 2 {
      CountOne(PowerOn, k);
      CountAppend([PowerOn], [Event.Sleep(3000)], k);
      CountOne(Event.Sleep(3000), k);
      assert [PowerOn] + [Event.Sleep(3000)] == DelayBefore(a);
    } else if a > 2 {
      CountOne(Event.Sleep(2000), k);
    }
  }

  /** The first `n` attempts make `n` calls of `sdkInit`, one power-on once there is a second
      attempt, one wait before each attempt after the first, and no other device call. */
  lemma {:induction false} AttemptsCountOf(reply: nat -> int, base: nat, n: nat, k: Kind)
    ensures Count(Attempts(reply, base, n), k) == CallsOf(n, k)
  {
    if n > 0 {
      var prev := Attempts(reply, base, n - 1);
      AttemptsCountOf(reply, base, n - 1, k);
      DelayCount(n, k);
      CountAppend(prev, DelayBefore(n), k);
      CountAppend(prev + DelayBefore(n), [SdkInit(Reply(reply, base, n))], k);
      CountOne(SdkInit(Reply(reply, base, n)), k);
    }
  }

  lemma AttemptsCount(reply: nat -> int, base: nat, n: nat)
    ensures var t := Attempts(reply, base, n);
      && Count(t, InitCall) == n
      && Count(t, PowerOnCall) == (if n >= 2 then 1 else 0)
      && Count(t, SleepCall) == (if n >= 1 then n - 1 else 0)
      && Count(t, StatusCall) == 0 && Count(t, AppendCall) == 0 && Count(t, StartCall) == 0
  {
    AttemptsCountOf(reply, base, n, InitCall);
    AttemptsCountOf(reply, base, n, PowerOnCall);
    AttemptsCountOf(reply, base, n, SleepCall);
    AttemptsCountOf(reply, base, n, StatusCall);
    AttemptsCountOf(reply, base, n, AppendCall);
    AttemptsCountOf(reply, base, n, StartCall);
  }

  lemma {:induction false} AttemptsPrefix(reply: nat -> int, base: nat, m: nat, n: nat)
    requires m <= n
    ensures Attempts(reply, base, m) <= Attempts(reply, base, n)
    decreases n - m
  {
    if m < n {
      AttemptsPrefix(reply, base, m, n - 1);
    }
  }

  lemma {:induction false} AttemptsLength(reply: nat -> int, base: nat, n: nat)
    ensures |Attempts(reply, base, n)| == (if n <= 1 then n else 2 * n)
  {
    if n > 0 {
      AttemptsLength(reply, base, n - 1);
    }
  }

  /** Attempt `k` of the first `n`: its `sdkInit` call at `CallIndex(k)`, and for `k >= 2`
      the wait of `DelayMillis(k)` just before it. */
  lemma AttemptAt(reply: nat -> int, base: nat, n: nat, k: nat)
    requires 1 <= k <= n
    ensures var t := Attempts(reply, base, n);
      && CallIndex(k) < |t| && t[CallIndex(k)] == SdkInit(Reply(reply, base, k))
      && (k >= 2 ==> t[SleepIndex(k)] == Event.Sleep(DelayMillis(k)))
  {
    AttemptsPrefix(reply, base, k, n);
    AttemptsLength(reply, base, k);
    AttemptsLength(reply, base, k - 1);
    assert Attempts(reply, base, k) == Attempts(reply, base, k - 1) + DelayBefore(k) + [SdkInit(Reply(reply, base, k))];
  }

  /** The layout of the start-up trace: attempt `k` at `CallIndex(k)`, preceded from the
      second attempt on by its wait, 3000 ms before the second and 2000 ms before each later
      one; the single power-on second in the trace, between the first two attempts. */
  lemma RetryLayout(reply: nat -> int, base: nat, n: nat)
    requires n <= MaxAttempts
    ensures var t := Attempts(reply, base, n);
      && |t| == (if n <= 1 then n else 2 * n)
      && (forall k :: 1 <= k <= n ==> t[CallIndex(k)] == SdkInit(Reply(reply, base, k)))
      && (forall k :: 2 <= k <= n ==> t[SleepIndex(k)] == Event.Sleep(DelayMillis(k)))
      && (n >= 2 ==> t[1] == PowerOn && Count(t, PowerOnCall) == 1)
      && (n <= 1 ==> Count(t, PowerOnCall) == 0)
  {
    AttemptsLength(reply, base, n);
    AttemptsCountOf(reply, base, n, PowerOnCall);
    forall k | 1 <= k <= n
      ensures Attempts(reply, base, n)[CallIndex(k)] == SdkInit(Reply(reply, base, k))
      ensures k >= 2 ==> Attempts(reply, base, n)[SleepIndex(k)] == Event.Sleep(DelayMillis(k))
    {
      AttemptAt(reply, base, n, k);
    }
    if n >= 2 {
      AttemptsPrefix(reply, base, 2, n);
      assert Attempts(reply, base, 2)[1] == PowerOn;
    }
  }

  /** `Tried` stops at the first OK status: every attempt from `a` up to the last one made
      failed, and the last one made succeeded unless it was the fifth. */
  lemma {:induction false} TriedStopsAtFirstOk(sdkOk: int, reply: nat -> int, base: nat, a: nat)
    requires 1 <= a <= MaxAttempts
    ensures var n := Tried(sdkOk, reply, base, a);
      && (forall k :: a <= k < n ==> Reply(reply, base, k) != sdkOk)
      && (Reply(reply, base, n) == sdkOk || n == MaxAttempts)
    decreases MaxAttempts - a
  {
    if Reply(reply, base, a) != sdkOk && a < MaxAttempts {
      TriedStopsAtFirstOk(sdkOk, reply, base, a + 1);
    }
  }

  /** A first attempt that succeeds is the whole start-up: one `sdkInit`, no power-on and no
      wait. */
  lemma FirstAttemptOk(sdkOk: int, reply: nat -> int, base: nat)
    requires Reply(reply, base, 1) == sdkOk
    ensures Tried(sdkOk, reply, base, 1) == 1
    ensures Attempts(reply, base, Tried(sdkOk, reply, base, 1)) == [SdkInit(sdkOk)]
  {
  }

  /** The whole start-up: between one and five `sdkInit` calls, the last one's status being
      the final one; every attempt before the last failed, so nothing is called after the
      first success; a final failure (the reported error) comes only after all five. */
  lemma StartUpSummary(sdkOk: int, reply: nat -> int, base: nat)
    ensures var n := Tried(sdkOk, reply, base, 1);
      var t := Attempts(reply, base, n);
      && 1 <= n <= MaxAttempts
      && Count(t, InitCall) == n
      && |t| >= 1 && t[|t| - 1] == SdkInit(Reply(reply, base, n))
      && (forall k :: 1 <= k < n ==> Reply(reply, base, k) != sdkOk)
      && (Reply(reply, base, n) != sdkOk ==> n == MaxAttempts)
  {
    var n := Tried(sdkOk, reply, base, 1);
    AttemptsCountOf(reply, base, n, InitCall);
    TriedStopsAtFirstOk(sdkOk, reply, base, 1);
  }
}
