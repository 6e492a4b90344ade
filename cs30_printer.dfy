/** The native binding CS30PrinterModule.kt: the three promise-returning operations the
    application calls (`initializePrinter`, `getPrinterStatus`, `printText`, and
    `printReceipt`, which is `printText`), over the vendor device handed to it. */
module CS30Printer {
  import opened PrinterTypes
  import opened Vendor
  import opened Numbers
  import Text

  /** Rejection codes. */
  const PrinterNotAvailable: string := "E_PRINTER_NOT_AVAILABLE"
  const PaperOut: string := "E_PAPER_OUT"
  const PrintFailed: string := "E_PRINT_FAILED"
  const InitFailed: string := "E_INIT_FAILED"

  /** The rejection messages that name a status end with its decimal text. */
  const InitFailedText: string := "Failed to initialize SDK, status: "
  const PrintFailedText: string := "Failed to start print job, status: "

  /** The dashed rule appended after every printed text. */
  const FooterRule: string := "--------------------------------"

  lemma FooterRuleIsRepeat()
    ensures FooterRule == Text.Repeat('-', 32)
  {
  }

  /** `getStatusText`: only the OK sentinel has a name (the other names are commented out in
      the source); every other code, paper-out included, is shown with its number. */
  function StatusText(sdkOk: int, status: int): (text: string)
    ensures text == "Ready" <==> status == sdkOk
    ensures status != sdkOk ==>
      && Text.StartsWith(text, "Unknown Status (") && text[|text| - 1] == ')'
      && SignedValue(text[16..|text| - 1]) == status
  {
    if status == sdkOk then "Ready"
    else
      var text := "Unknown Status (" + IntText(status) + ")";
      IntTextRoundTrip(status);
      assert text[16..|text| - 1] == IntText(status);
      text
  }

  /** The status map `getPrinterStatus` resolves with for a raw status code. */
  function StatusOf(sdkOk: int, paperOut: int, status: int): (s: PrinterStatus)
    ensures s.statusCode == status
    ensures s.isReady <==> status == sdkOk
    ensures s.isPaperOut <==> status == paperOut
    ensures s.statusText == StatusText(sdkOk, status)
  {
    PrinterStatus(status, StatusText(sdkOk, status), status == sdkOk, status == paperOut)
  }

  /** A status is never both ready and paper-out, and its text reads "Ready" exactly when it
      is ready; a paper-out status is therefore never "Ready". */
  lemma StatusFlagsAgree(sdkOk: int, paperOut: int, status: int)
    requires sdkOk != paperOut
    ensures var s := StatusOf(sdkOk, paperOut, status);
      && !(s.isReady && s.isPaperOut)
      && (s.statusText == "Ready" <==> s.isReady)
      && (s.isPaperOut ==> s.statusText != "Ready")
  {
  }

  /** The device calls of `initializePrinter` when the first `sdkInit` returns `s1` and a
      second would return `s2`. */
  function InitEvents(sdkOk: int, s1: int, s2: int): seq<Event> {
    if s1 == sdkOk then [SdkInit(s1)] else [SdkInit(s1)] + [PowerOn] + [Event.Sleep(2000)] + [SdkInit(s2)]
  }

  /** How many calls of kind `k` `initializePrinter` makes. */
  function InitCalls(firstOk: bool, k: Kind): nat {
    match k
    case InitCall => if firstOk then 1 else 2
    case PowerOnCall => if firstOk then 0 else 1
    case SleepCall => if firstOk then 0 else 1
    case _ => 0
  }

  lemma InitEventsCount(sdkOk: int, s1: int, s2: int, k: Kind)
    ensures Count(InitEvents(sdkOk, s1, s2), k) == InitCalls(s1 == sdkOk, k)
  {
    var t0 := [SdkInit(s1)];
    CountOne(SdkInit(s1), k);
    if s1 != sdkOk {
      var t1 := t0 + [PowerOn];
      var t2 := t1 + [Event.Sleep(2000)];
      CountSnoc(t0, PowerOn, k);
      CountSnoc(t1, Event.Sleep(2000), k);
      CountSnoc(t2, SdkInit(s2), k);
      assert t2 + [SdkInit(s2)] == InitEvents(sdkOk, s1, s2);
    }
  }

  /** One call when the first `sdkInit` succeeds; otherwise power-on, a 2000 ms wait and
      exactly one more call, the power-on strictly between the two calls; no other device
      call. */
  lemma InitEventsShape(sdkOk: int, s1: int, s2: int)
    ensures var t := InitEvents(sdkOk, s1, s2);
      && |t| >= 1 && t[0] == SdkInit(s1) && t[|t| - 1] == SdkInit(if s1 == sdkOk then s1 else s2)
      && Count(t, InitCall) == (if s1 == sdkOk then 1 else 2)
      && Count(t, PowerOnCall) == (if s1 == sdkOk then 0 else 1)
      && Count(t, StatusCall) == 0 && Count(t, AppendCall) == 0 && Count(t, StartCall) == 0
      && forall i :: 0 <= i < |t| && t[i] == PowerOn ==> 0 < i < |t| - 1
  {
    InitEventsCount(sdkOk, s1, s2, InitCall);
    InitEventsCount(sdkOk, s1, s2, PowerOnCall);
    InitEventsCount(sdkOk, s1, s2, StatusCall);
    InitEventsCount(sdkOk, s1, s2, AppendCall);
    InitEventsCount(sdkOk, s1, s2, StartCall);
  }

  /** How `initializePrinter` settles. */
  function InitOutcome(sdkOk: int, s1: int, s2: int): Outcome<bool> {
    var last := if s1 == sdkOk then s1 else s2;
    if last == sdkOk then Resolved(true)
    else Rejected(NativeError(InitFailed, InitFailedText + IntText(last)))
  }

  /** `initializePrinter` resolves with true exactly when the last `sdkInit` returned OK,
      otherwise rejects with `E_INIT_FAILED` naming that last status; it never resolves
      with false. */
  lemma InitOutcomeCases(sdkOk: int, s1: int, s2: int)
    ensures var r, last := InitOutcome(sdkOk, s1, s2), if s1 == sdkOk then s1 else s2;
      && (r.Resolved? <==> last == sdkOk)
      && (r.Resolved? ==> r.value)
      && (r.Rejected? ==> r.error.code == InitFailed && Text.StartsWith(r.error.message, InitFailedText) && SignedValue(r.error.message[|InitFailedText|..]) == last)
  {
    var last := if s1 == sdkOk then s1 else s2;
    if last != sdkOk {
      IntTextRoundTrip(last);
      assert InitOutcome(sdkOk, s1, s2).error.message[|InitFailedText|..] == IntText(last);
    }
  }

  /** What `printText` appends to the print buffer: the text, then the fixed footer. */
  function PrintPieces(text: string): seq<string> {
    [text, "\n\n", FooterRule, "\n\n\n"]
  }

  /** The device calls of `printText` when the status read returns `status` and
      `setPrintStart` would return `start`. */
  function PrintEvents(hasPrinter: bool, paperOut: int, text: string, status: int, start: int): seq<Event> {
    if !hasPrinter then []
    else if status == paperOut then [StatusRead(status)]
    else [StatusRead(status)] + [Append(text)] + [Append("\n\n")] + [Append(FooterRule)] + [Append("\n\n\n")] + [PrintStart(start)]
  }

  /** How many calls of kind `k` `printText` makes. */
  function PrintCalls(hasPrinter: bool, paperOut: int, status: int, k: Kind): nat {
    var proceeds := PrintProceeds(hasPrinter, paperOut, status);
    match k
    case StatusCall => if hasPrinter then 1 else 0
    case AppendCall => if proceeds then 4 else 0
    case StartCall => if proceeds then 1 else 0
    case _ => 0
  }

  lemma PrintEventsCount(hasPrinter: bool, paperOut: int, text: string, status: int, start: int, k: Kind)
    ensures Count(PrintEvents(hasPrinter, paperOut, text, status, start), k) == PrintCalls(hasPrinter, paperOut, status, k)
  {
    if hasPrinter {
      CountOne(StatusRead(status), k);
      if status != paperOut {
        AppendsCount([StatusRead(status)], text, "\n\n", FooterRule, "\n\n\n", start, k);
      }
    }
  }

  /** Four appends and a start after a trace `t` add four append calls and one start. */
  lemma AppendsCount(t: seq<Event>, a: string, b: string, c: string, d: string, start: int, k: Kind)
    ensures Count(t + [Append(a)] + [Append(b)] + [Append(c)] + [Append(d)] + [PrintStart(start)], k)
      == Count(t, k) + (if k == AppendCall then 4 else if k == StartCall then 1 else 0)
  {
    CountSnoc(t, Append(a), k);
    CountSnoc(t + [Append(a)], Append(b), k);
    CountSnoc(t + [Append(a)] + [Append(b)], Append(c), k);
    CountSnoc(t + [Append(a)] + [Append(b)] + [Append(c)], Append(d), k);
    CountSnoc(t + [Append(a)] + [Append(b)] + [Append(c)] + [Append(d)], PrintStart(start), k);
  }

  /** Without a printer nothing is called; with one, the status is read first, and when the
      paper is out nothing follows; otherwise the four appends of the text and the footer,
      in order, and one `setPrintStart` last. */
  lemma PrintEventsShape(hasPrinter: bool, paperOut: int, text: string, status: int, start: int)
    ensures var t := PrintEvents(hasPrinter, paperOut, text, status, start);
      && (!hasPrinter ==> t == [])
      && (hasPrinter ==> |t| >= 1 && t[0] == StatusRead(status))
      && Count(t, InitCall) == 0 && Count(t, PowerOnCall) == 0 && Count(t, SleepCall) == 0
      && Count(t, StatusCall) == (if hasPrinter then 1 else 0)
      && (hasPrinter && status == paperOut ==> t == [StatusRead(status)])
      && (PrintProceeds(hasPrinter, paperOut, status) ==>
        && |t| == 6 && t[5] == PrintStart(start)
        && Count(t, AppendCall) == 4 && Count(t, StartCall) == 1
        && forall i :: 1 <= i <= 4 ==> t[i] == Append(PrintPieces(text)[i - 1]))
      && (!PrintProceeds(hasPrinter, paperOut, status) ==> Count(t, AppendCall) == 0 && Count(t, StartCall) == 0)
  {
    PrintEventsCount(hasPrinter, paperOut, text, status, start, InitCall);
    PrintEventsCount(hasPrinter, paperOut, text, status, start, PowerOnCall);
    PrintEventsCount(hasPrinter, paperOut, text, status, start, SleepCall);
    PrintEventsCount(hasPrinter, paperOut, text, status, start, StatusCall);
    PrintEventsCount(hasPrinter, paperOut, text, status, start, AppendCall);
    PrintEventsCount(hasPrinter, paperOut, text, status, start, StartCall);
  }

  /** Whether `printText` goes on past its checks to append and start the print. */
  predicate PrintProceeds(hasPrinter: bool, paperOut: int, status: int) {
    hasPrinter && status != paperOut
  }

  /** What `printText` appends to the print buffer. */
  function PrintAdded(hasPrinter: bool, paperOut: int, text: string, status: int): seq<string> {
    if PrintProceeds(hasPrinter, paperOut, status) then PrintPieces(text) else []
  }

  /** How `printText` settles. */
  function PrintOutcome(hasPrinter: bool, sdkOk: int, paperOut: int, status: int, start: int): Outcome<bool> {
    if !hasPrinter then Rejected(NativeError(PrinterNotAvailable, "Printer not available"))
    else if status == paperOut then Rejected(NativeError(PaperOut, "Printer is out of paper"))
    else if start == sdkOk then Resolved(true)
    else Rejected(NativeError(PrintFailed, PrintFailedText + IntText(start)))
  }

  /** No printer rejects with `E_PRINTER_NOT_AVAILABLE`, paper-out with `E_PAPER_OUT`;
      otherwise the call resolves with true exactly when `setPrintStart` returned OK, and
      rejects with `E_PRINT_FAILED` naming that status when it did not. */
  lemma PrintOutcomeCases(hasPrinter: bool, sdkOk: int, paperOut: int, status: int, start: int)
    ensures var r := PrintOutcome(hasPrinter, sdkOk, paperOut, status, start);
      && (!hasPrinter ==> r == Rejected(NativeError(PrinterNotAvailable, "Printer not available")))
      && (hasPrinter && status == paperOut ==> r == Rejected(NativeError(PaperOut, "Printer is out of paper")))
      && (PrintProceeds(hasPrinter, paperOut, status) ==>
        && (r.Resolved? <==> start == sdkOk)
        && (r.Resolved? ==> r.value)
        && (r.Rejected? ==> r.error.code == PrintFailed && Text.StartsWith(r.error.message, PrintFailedText) && SignedValue(r.error.message[|PrintFailedText|..]) == start))
  {
    if PrintProceeds(hasPrinter, paperOut, status) && start != sdkOk {
      IntTextRoundTrip(start);
      assert PrintOutcome(hasPrinter, sdkOk, paperOut, status, start).error.message[|PrintFailedText|..] == IntText(start);
    }
  }

  class CS30PrinterModule {
    /** The vendor device, handed in rather than fetched from `DriverManager.getInstance()`. */
    const device: Device

    constructor (device: Device)
      ensures this.device == device
    {
      this.device := device;
    }

    /** `initializePrinter`: `sdkInit`, and when that is not OK, `sysPowerOn`, a 2000 ms wait
        and one more `sdkInit`. */
    method InitializePrinter() returns (r: Outcome<bool>)
      modifies device`log, device`inits, device`powerOns
      ensures var s1, s2 := old(device.NextInit(0)), old(device.NextInit(1));
        && device.log == old(device.log) + InitEvents(device.sdkOk, s1, s2)
        && device.inits == old(device.inits) + (if s1 == device.sdkOk then 1 else 2)
        && device.powerOns == old(device.powerOns) + (if s1 == device.sdkOk then 0 else 1)
        && r == InitOutcome(device.sdkOk, s1, s2)
    {
      var status := device.SdkInitCall();
      if status != device.sdkOk {
        device.SysPowerOn();
        device.Sleep(2000);
        assert device.log == old(device.log) + [SdkInit(status), PowerOn, Event.Sleep(2000)];
        status := device.SdkInitCall();
      }
      if status == device.sdkOk {
        r := Resolved(true);
      } else {
        r := Rejected(NativeError(InitFailed, InitFailedText + IntText(status)));
      }
    }

    /** `getPrinterStatus`: rejects without touching the device when there is no printer;
        otherwise reads the status once and maps it. */
    method GetPrinterStatus() returns (r: Outcome<PrinterStatus>)
      modifies device`log, device`statusReads
      ensures !device.hasPrinter ==>
        && r == Rejected(NativeError(PrinterNotAvailable, "Printer not available"))
        && device.log == old(device.log) && device.statusReads == old(device.statusReads)
      ensures device.hasPrinter ==>
        var status := old(device.NextStatus());
        && r == Resolved(StatusOf(device.sdkOk, device.paperOut, status))
        && device.log == old(device.log) + [StatusRead(status)]
        && device.statusReads == old(device.statusReads) + 1
    {
      if !device.hasPrinter {
        return Rejected(NativeError(PrinterNotAvailable, "Printer not available"));
      }
      var status := device.PrinterStatus();
      r := Resolved(StatusOf(device.sdkOk, device.paperOut, status));
    }

    /** The whole effect of `printText(text)` settling as `r`, given the status the next read
        would return and the status the next `setPrintStart` would return. */
    twostate predicate PrintedText(text: string, new r: Outcome<bool>)
      reads this, device
    {
      var status, start := old(device.NextStatus()), old(device.NextStart());
      && device.log == old(device.log) + PrintEvents(device.hasPrinter, device.paperOut, text, status, start)
      && device.buffer == old(device.buffer) + PrintAdded(device.hasPrinter, device.paperOut, text, status)
      && device.statusReads == old(device.statusReads) + (if device.hasPrinter then 1 else 0)
      && device.starts == old(device.starts) + (if PrintProceeds(device.hasPrinter, device.paperOut, status) then 1 else 0)
      && r == PrintOutcome(device.hasPrinter, device.sdkOk, device.paperOut, status, start)
    }

    /** `printText`: no printer rejects at once; paper-out rejects before anything is
        appended; otherwise the text and the footer are appended and the print is started. */
    method PrintText(text: string) returns (r: Outcome<bool>)
      modifies device`log, device`buffer, device`statusReads, device`starts
      ensures PrintedText(text, r)
    {
      if !device.hasPrinter {
        return Rejected(NativeError(PrinterNotAvailable, "Printer not available"));
      }
      var printStatus := device.PrinterStatus();
      if printStatus == device.paperOut {
        return Rejected(NativeError(PaperOut, "Printer is out of paper"));
      }
      ghost var start := device.NextStart();
      AppendWithFooter(text);
      var startStatus := device.SetPrintStart();
      assert device.log == old(device.log) + PrintEvents(true, device.paperOut, text, printStatus, start);
      if startStatus == device.sdkOk {
        r := Resolved(true);
      } else {
        r := Rejected(NativeError(PrintFailed, PrintFailedText + IntText(startStatus)));
      }
    }

    /** The four `setPrintAppendString` calls of `printText`: the text, then the footer. */
    method AppendWithFooter(text: string)
      requires device.hasPrinter
      modifies device`log, device`buffer
      ensures device.buffer == old(device.buffer) + PrintPieces(text)
      ensures device.log == old(device.log) + [Append(text), Append("\n\n"), Append(FooterRule), Append("\n\n\n")]
    {
      device.SetPrintAppendString(text);
      device.SetPrintAppendString("\n\n");
      device.SetPrintAppendString(FooterRule);
      device.SetPrintAppendString("\n\n\n");
    }

    /** `printReceipt(s)` is `printText(s)`. */
    method PrintReceipt(receiptData: string) returns (r: Outcome<bool>)
      modifies device`log, device`buffer, device`statusReads, device`starts
      ensures PrintedText(receiptData, r)
    {
      r := PrintText(receiptData);
    }
  }
}
