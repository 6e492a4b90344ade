/** The vendor SDK of the handheld (the ZCS `DriverManager`, its `baseSysDevice` and its
    `printer`) as an abstract device. Every status the device reports comes from a script
    fixed when the device is made: the k-th `sdkInit` call returns `initReply(k)`, the k-th
    read of `printerStatus` returns `statusReply(k)` and the k-th `setPrintStart` returns
    `startReply(k)` (counting from 0). Every call, and every `Thread.sleep` of the callers,
    is recorded in an event log, and the print buffer grows in place. */
module Vendor {

  datatype Event =
    | SdkInit(status: int)
    | PowerOn
    | Sleep(millis: nat)
    | StatusRead(status: int)
    | Append(text: string)
    | PrintStart(status: int)
  {
    function Kind(): Kind {
      match this
      case SdkInit(_) => InitCall
      case PowerOn => PowerOnCall
      case Sleep(_) => SleepCall
      case StatusRead(_) => StatusCall
      case Append(_) => AppendCall
      case PrintStart(_) => StartCall
    }
  }

  datatype Kind = InitCall | PowerOnCall | SleepCall | StatusCall | AppendCall | StartCall

  /** How many events of kind `k` the trace holds. */
  function Count(t: seq<Event>, k: Kind): nat
    decreases |t|
  {
    if t == [] then 0 else Count(t[..|t| - 1], k) + (if t[|t| - 1].Kind() == k then 1 else 0)
  }

  lemma {:induction false} CountAppend(a: seq<Event>, b: seq<Event>, k: Kind)
    ensures Count(a + b, k) == Count(a, k) + Count(b, k)
    decreases |b|
  {
    if b == [] {
      assert a + b == a;
    } else {
      CountAppend(a, b[..|b| - 1], k);
      assert (a + b)[..|a + b| - 1] == a + b[..|b| - 1];
    }
  }

  lemma CountSnoc(t: seq<Event>, e: Event, k: Kind)
    ensures Count(t + [e], k) == Count(t, k) + (if e.Kind() == k then 1 else 0)
  {
    assert (t + [e])[..|t|] == t;
  }

  lemma CountOne(e: Event, k: Kind)
    ensures Count([e], k) == (if e.Kind() == k then 1 else 0)
  {
    assert [e][..0] == [];
  }

  class Device {
    /** `SdkResult.SDK_OK` and `SdkResult.SDK_PRN_STATUS_PAPEROUT`: distinct sentinels whose
        values the model leaves open. */
    const sdkOk: int
    const paperOut: int
    /** `driverManager.printer != null`. */
    const hasPrinter: bool
    const initReply: nat -> int
    const statusReply: nat -> int
    const startReply: nat -> int

    var log: seq<Event>
    var buffer: seq<string>
    /** How many `sdkInit` calls, power-ons, status reads and `setPrintStart` calls were made. */
    var inits: nat
    var powerOns: nat
    var statusReads: nat
    var starts: nat

    constructor (sdkOk: int, paperOut: int, hasPrinter: bool,
                 initReply: nat -> int, statusReply: nat -> int, startReply: nat -> int)
      requires sdkOk != paperOut
      ensures this.sdkOk == sdkOk && this.paperOut == paperOut && this.hasPrinter == hasPrinter
      ensures this.initReply == initReply && this.statusReply == statusReply && this.startReply == startReply
      ensures log == [] && buffer == [] && inits == 0 && powerOns == 0 && statusReads == 0 && starts == 0
    {
      this.sdkOk, this.paperOut, this.hasPrinter := sdkOk, paperOut, hasPrinter;
      this.initReply, this.statusReply, this.startReply := initReply, statusReply, startReply;
      log, buffer := [], [];
      inits, powerOns, statusReads, starts := 0, 0, 0, 0;
    }

    /** The status the `sdkInit` call `j` calls from now would return. */
    function NextInit(j: nat): int
      reads this
    {
      initReply(inits + j)
    }

    /** The status the next read of `printerStatus` would return. */
    function NextStatus(): int
      reads this
    {
      statusReply(statusReads)
    }

    /** The status the next `setPrintStart` would return. */
    function NextStart(): int
      reads this
    {
      startReply(starts)
    }

    /** `baseSysDevice.sdkInit()`. */
    method SdkInitCall() returns (status: int)
      modifies this`log, this`inits
      ensures status == old(NextInit(0))
      ensures log == old(log) + [SdkInit(status)]
      ensures inits == old(inits) + 1
    {
      status := NextInit(0);
      log, inits := log + [SdkInit(status)], inits + 1;
    }

    /** `baseSysDevice.sysPowerOn()`. */
    method SysPowerOn()
      modifies this`log, this`powerOns
      ensures log == old(log) + [PowerOn]
      ensures powerOns == old(powerOns) + 1
    {
      log, powerOns := log + [PowerOn], powerOns + 1;
    }

    /** `Thread.sleep(millis)` of the caller, recorded rather than timed. */
    method Sleep(millis: nat)
      modifies this`log
      ensures log == old(log) + [Event.Sleep(millis)]
    {
      log := log + [Event.Sleep(millis)];
    }

    /** Reading `printer.printerStatus`; callers check for a printer first. */
    method PrinterStatus() returns (status: int)
      requires hasPrinter
      modifies this`log, this`statusReads
      ensures status == old(NextStatus())
      ensures log == old(log) + [StatusRead(status)]
      ensures statusReads == old(statusReads) + 1
    {
      status := NextStatus();
      log, statusReads := log + [StatusRead(status)], statusReads + 1;
    }

    /** `printer.setPrintAppendString(text, format)`; the format is not modelled. */
    method SetPrintAppendString(text: string)
      requires hasPrinter
      modifies this`log, this`buffer
      ensures buffer == old(buffer) + [text]
      ensures log == old(log) + [Append(text)]
    {
      buffer := buffer + [text];
      log := log + [Append(text)];
    }

    /** `printer.setPrintStart()`. */
    method SetPrintStart() returns (status: int)
      requires hasPrinter
      modifies this`log, this`starts
      ensures status == old(NextStart())
      ensures log == old(log) + [PrintStart(status)]
      ensures starts == old(starts) + 1
    {
      status := NextStart();
      log, starts := log + [PrintStart(status)], starts + 1;
    }
  }
}
