/** services/PrinterService.ts: the application's printer client. A single instance holds
    the `isInitialized` flag, initialises the native module lazily before printing, and
    formats a receipt as 32-column text. */
module PrinterClient {
  import opened PrinterTypes
  import opened Text
  import opened Numbers
  import opened Offenses
  import opened Vendor
  import opened CS30Printer

  const LineWidth: int := 32
  /** `'='.repeat(32)`. */
  const Separator: string := "================================"

  lemma RulesAreRepeats()
    ensures Separator == Repeat('=', 32) && Dash == Repeat('-', 32)
  {
  }

  /** `centerText(text, width)`: left padding of half the free columns, rounded down; the
      text itself is never cut. */
  function CenterText(text: string, width: int): (r: string)
    ensures |r| >= |text| && r[|r| - |text|..] == text
    ensures forall i :: 0 <= i < |r| - |text| ==> r[i] == ' '
    ensures |text| >= width ==> r == text
    ensures |text| <= width ==> |r| <= width && |r| - |text| <= width - |r| <= |r| - |text| + 1
  {
    var pad := Repeat(' ', CenterPadding(|text|, width));
    assert (pad + text)[|pad|..] == text;
    pad + text
  }

  /** The 32-character rule is never padded. */
  lemma SeparatorNotPadded()
    ensures CenterText(Separator, LineWidth) == Separator
  {
  }

  /* ---------- the receipt, line by line (every line ends with a newline) ---------- */

  function HeaderLines(): seq<string> {
    [CenterText("TRAFFIC OFFENSE RECEIPT", LineWidth), CenterText(Separator, LineWidth), ""]
  }

  function DetailsLines(r: ReceiptData): seq<string> {
    ["RECEIPT DETAILS", Dash, "Receipt No: " + r.receiptNumber, "Date: " + r.date, "Time: " + r.time, ""]
  }

  /** `if (offenderDetails.vehicleRegistration)`: present and not empty. */
  predicate VehicleShown(v: Option<string>) {
    v.Some? && v.value != ""
  }

  function OffenderLines(o: OffenderDetails): seq<string> {
    ["OFFENDER INFORMATION", Dash, "Name: " + o.name]
    + (if LicenseShown(o.licenseNumber) then ["License: " + o.licenseNumber] else [])
    + (if VehicleShown(o.vehicleRegistration) then ["Vehicle: " + o.vehicleRegistration.value] else [])
    + [""]
  }

  function OffenseSection(s: SelectedOffense): seq<string> {
    Listing("OFFENSE DETAILS", s.name, s.code, "TOTAL FINE: KES " + LocaleText(s.fine))
  }

  function PaymentLines(paymentMethod: string, p: PaymentDetails): seq<string> {
    ["PAYMENT INFORMATION", Dash, "Method: " + paymentMethod]
    + (if p.transactionId != "" then ["Transaction: " + p.transactionId] else [])
    + ["Status: PAID", ""]
  }

  function OfficerLines(r: ReceiptData): seq<string> {
    ["OFFICER DETAILS", Dash, "Officer: " + r.officer, "Badge: " + r.badgeNumber, ""]
  }

  function FooterLines(): seq<string> {
    [CenterText(Separator, LineWidth), CenterText("OFFICIAL RECEIPT", LineWidth),
     CenterText("Keep as proof of payment", LineWidth), CenterText(Separator, LineWidth)]
  }

  /** The receipt's lines, section after section. */
  function ReceiptLines(data: PrintData): seq<string> {
    HeaderLines() + DetailsLines(data.receiptData) + OffenderLines(data.offenderDetails)
    + OffenseSection(data.selectedOffense) + PaymentLines(data.paymentMethod, data.paymentDetails)
    + OfficerLines(data.receiptData) + FooterLines()
  }

  /** A `License:` line is printed exactly when the number is non-empty and not "N/A", and a
      `Vehicle:` line exactly when a non-empty registration is present; the rest of the
      section is the heading, the rule, the name and a blank line. */
  lemma OffenderLayout(o: OffenderDetails)
    ensures var s, nl := OffenderLines(o), if LicenseShown(o.licenseNumber) then 1 else 0;
      && |s| == 4 + nl + (if VehicleShown(o.vehicleRegistration) then 1 else 0)
      && s[0] == "OFFENDER INFORMATION" && s[1] == Dash && s[2] == "Name: " + o.name && s[|s| - 1] == ""
      && (("License: " + o.licenseNumber in s) <==> LicenseShown(o.licenseNumber))
      && (LicenseShown(o.licenseNumber) ==> s[3] == "License: " + o.licenseNumber)
      && ((exists i :: 0 <= i < |s| && StartsWith(s[i], "Vehicle: ")) <==> VehicleShown(o.vehicleRegistration))
      && (VehicleShown(o.vehicleRegistration) ==> s[3 + nl] == "Vehicle: " + o.vehicleRegistration.value)
  {
    var s := OffenderLines(o);
    var lic := "License: " + o.licenseNumber;
    forall i | 0 <= i < |s|
      ensures s[i] == lic ==> LicenseShown(o.licenseNumber)
      ensures StartsWith(s[i], "Vehicle: ") ==> VehicleShown(o.vehicleRegistration)
    {
      OffenderLineAt(o, i);
    }
    if VehicleShown(o.vehicleRegistration) {
      var nl := if LicenseShown(o.licenseNumber) then 1 else 0;
      assert StartsWith(s[3 + nl], "Vehicle: ");
    }
  }

  /** A line of the offender section is the licence line only when the licence is shown,
      and starts with `Vehicle: ` only when the registration is shown. */
  lemma OffenderLineAt(o: OffenderDetails, i: nat)
    requires i < |OffenderLines(o)|
    ensures var line := OffenderLines(o)[i];
      && (line == "License: " + o.licenseNumber ==> LicenseShown(o.licenseNumber))
      && (StartsWith(line, "Vehicle: ") ==> VehicleShown(o.vehicleRegistration))
  {
    var head := ["OFFENDER INFORMATION", Dash, "Name: " + o.name];
    var l := if LicenseShown(o.licenseNumber) then ["License: " + o.licenseNumber] else [];
    var v := if VehicleShown(o.vehicleRegistration) then ["Vehicle: " + o.vehicleRegistration.value] else [];
    var s := OffenderLines(o);
    assert s == head + l + v + [""];
    var line := s[i];
    var lic := "License: " + o.licenseNumber;
    assert lic[0] == 'L';
    if i < 3 {
      assert line == head[i];
      assert line[0] != 'L' && line[0] != 'V';
    } else if i < 3 + |l| {
      assert line == l[0];
      assert line[0] != 'V';
    } else if i < 3 + |l| + |v| {
      assert line == v[0];
      assert line[0] != 'L';
    } else {
      assert line == "";
    }
  }

  /** A `Transaction:` line is printed exactly when the transaction id is non-empty;
      `Status: PAID` is always printed, just before the closing blank line. */
  lemma PaymentLayout(paymentMethod: string, p: PaymentDetails)
    ensures var s := PaymentLines(paymentMethod, p);
      && |s| == 5 + (if p.transactionId != "" then 1 else 0)
      && s[0] == "PAYMENT INFORMATION" && s[1] == Dash && s[2] == "Method: " + paymentMethod
      && (("Transaction: " + p.transactionId in s) <==> p.transactionId != "")
      && (p.transactionId != "" ==> s[3] == "Transaction: " + p.transactionId)
      && s[|s| - 2] == "Status: PAID" && s[|s| - 1] == ""
  {
    var s := PaymentLines(paymentMethod, p);
    var t := "Transaction: " + p.transactionId;
    assert t[0] == 'T';
    if p.transactionId == "" {
      forall i | 0 <= i < |s|
        ensures s[i] != t
      {
        assert |s[i]| == 0 || s[i][0] != 'T';
      }
    }
  }

  /** The section headings in order: receipt details, offender, offense, payment, officer,
      each after the lines of the section before it. */
  lemma ReceiptHeadings(data: PrintData)
    ensures var o, f, p := OffenderLines(data.offenderDetails), OffenseSection(data.selectedOffense),
      PaymentLines(data.paymentMethod, data.paymentDetails);
      var r, a, b, c := ReceiptLines(data), 9 + |o|, 9 + |o| + |f|, 9 + |o| + |f| + |p|;
      && |r| == c + 9
      && r[3] == "RECEIPT DETAILS" && r[9] == "OFFENDER INFORMATION" && r[a] == "OFFENSE DETAILS"
      && r[b] == "PAYMENT INFORMATION" && r[c] == "OFFICER DETAILS"
  {
    SevenSlices(HeaderLines(), DetailsLines(data.receiptData), OffenderLines(data.offenderDetails),
      OffenseSection(data.selectedOffense), PaymentLines(data.paymentMethod, data.paymentDetails),
      OfficerLines(data.receiptData), FooterLines());
  }

  /** The total line, with the fine in en-US grouping, and `Status: PAID` are on every
      receipt. */
  lemma AlwaysPrinted(data: PrintData)
    ensures var r := ReceiptLines(data);
      && "TOTAL FINE: KES " + LocaleText(data.selectedOffense.fine) in r
      && "Status: PAID" in r
  {
    var s := data.selectedOffense;
    ListingLayout("OFFENSE DETAILS", s.name, s.code, "TOTAL FINE: KES " + LocaleText(s.fine));
    PaymentLayout(data.paymentMethod, data.paymentDetails);
    var f, p := OffenseSection(s), PaymentLines(data.paymentMethod, data.paymentDetails);
    assert "TOTAL FINE: KES " + LocaleText(s.fine) == f[|f| - 2];
    assert "Status: PAID" == p[|p| - 2];
  }

  /** The receipt's first and last two lines' rule: the separator line opens the header and
      opens and closes the footer. */
  lemma ReceiptRules(data: PrintData)
    ensures var r := ReceiptLines(data);
      |r| >= 4 && r[1] == Separator && r[|r| - 4] == Separator && r[|r| - 1] == Separator
  {
    SeparatorNotPadded();
    SevenSlices(HeaderLines(), DetailsLines(data.receiptData), OffenderLines(data.offenderDetails),
      OffenseSection(data.selectedOffense), PaymentLines(data.paymentMethod, data.paymentDetails),
      OfficerLines(data.receiptData), FooterLines());
  }

  /** `formatReceiptContent`: `content` grows by `+=`, one line at a time, section after
      section, with a loop over the offenses on the multi-offense path. */
  method FormatReceiptContent(data: PrintData) returns (content: string)
    ensures content == Render(ReceiptLines(data))
  {
    content := AddHeader("", []);
    assert [] + HeaderLines() == HeaderLines();
    content := AddDetails(content, HeaderLines(), data.receiptData);
    ghost var base := HeaderLines() + DetailsLines(data.receiptData);
    content := AddOffender(content, base, data.offenderDetails);
    base := base + OffenderLines(data.offenderDetails);
    content := AddListing(content, base, "OFFENSE DETAILS", data.selectedOffense.name, data.selectedOffense.code,
      "TOTAL FINE: KES " + LocaleText(data.selectedOffense.fine));
    base := base + OffenseSection(data.selectedOffense);
    content := AddPayment(content, base, data.paymentMethod, data.paymentDetails);
    base := base + PaymentLines(data.paymentMethod, data.paymentDetails);
    content := AddOfficer(content, base, data.receiptData);
    base := base + OfficerLines(data.receiptData);
    content := AddFooter(content, base);
  }

  method AddHeader(content: string, ghost base: seq<string>) returns (content': string)
    requires content == Render(base)
    ensures content' == Render(base + HeaderLines())
  {
    ghost var sec := HeaderLines();
    content' := Put(content, base, sec, 0, CenterText("TRAFFIC OFFENSE RECEIPT", LineWidth) + "\n");
    content' := Put(content', base, sec, 1, CenterText(Separator, LineWidth) + "\n");
    content' := Put(content', base, sec, 2, "\n");
    SectionDone(content', base, sec);
  }

  method AddDetails(content: string, ghost base: seq<string>, receiptData: ReceiptData) returns (content': string)
    requires content == Render(base)
    ensures content' == Render(base + DetailsLines(receiptData))
  {
    ghost var sec := DetailsLines(receiptData);
    content' := Put(content, base, sec, 0, "RECEIPT DETAILS" + "\n");
    content' := Put(content', base, sec, 1, Dash + "\n");
    content' := Put(content', base, sec, 2, "Receipt No: " + receiptData.receiptNumber + "\n");
    content' := Put(content', base, sec, 3, "Date: " + receiptData.date + "\n");
    content' := Put(content', base, sec, 4, "Time: " + receiptData.time + "\n");
    content' := Put(content', base, sec, 5, "\n");
    SectionDone(content', base, sec);
  }

  method AddOffender(content: string, ghost base: seq<string>, offenderDetails: OffenderDetails) returns (content': string)
    requires content == Render(base)
    ensures content' == Render(base + OffenderLines(offenderDetails))
  {
    ghost var sec := OffenderLines(offenderDetails);
    content' := Put(content, base, sec, 0, "OFFENDER INFORMATION" + "\n");
    content' := Put(content', base, sec, 1, Dash + "\n");
    content' := Put(content', base, sec, 2, "Name: " + offenderDetails.name + "\n");
    ghost var k := 3;
    if offenderDetails.licenseNumber != "" && offenderDetails.licenseNumber != "N/A" {
      content' := Put(content', base, sec, k, "License: " + offenderDetails.licenseNumber + "\n");
      k := k + 1;
    }
    if offenderDetails.vehicleRegistration.Some? && offenderDetails.vehicleRegistration.value != "" {
      content' := Put(content', base, sec, k, "Vehicle: " + offenderDetails.vehicleRegistration.value + "\n");
      k := k + 1;
    }
    content' := Put(content', base, sec, k, "\n");
    SectionDone(content', base, sec);
  }

  method AddPayment(content: string, ghost base: seq<string>, paymentMethod: string, paymentDetails: PaymentDetails) returns (content': string)
    requires content == Render(base)
    ensures content' == Render(base + PaymentLines(paymentMethod, paymentDetails))
  {
    ghost var sec := PaymentLines(paymentMethod, paymentDetails);
    content' := Put(content, base, sec, 0, "PAYMENT INFORMATION" + "\n");
    content' := Put(content', base, sec, 1, Dash + "\n");
    content' := Put(content', base, sec, 2, "Method: " + paymentMethod + "\n");
    ghost var k := 3;
    if paymentDetails.transactionId != "" {
      content' := Put(content', base, sec, k, "Transaction: " + paymentDetails.transactionId + "\n");
      k := k + 1;
    }
    content' := Put(content', base, sec, k, "Status: PAID" + "\n");
    content' := Put(content', base, sec, k + 1, "\n");
    SectionDone(content', base, sec);
  }

  method AddOfficer(content: string, ghost base: seq<string>, receiptData: ReceiptData) returns (content': string)
    requires content == Render(base)
    ensures content' == Render(base + OfficerLines(receiptData))
  {
    ghost var sec := OfficerLines(receiptData);
    content' := Put(content, base, sec, 0, "OFFICER DETAILS" + "\n");
    content' := Put(content', base, sec, 1, Dash + "\n");
    content' := Put(content', base, sec, 2, "Officer: " + receiptData.officer + "\n");
    content' := Put(content', base, sec, 3, "Badge: " + receiptData.badgeNumber + "\n");
    content' := Put(content', base, sec, 4, "\n");
    SectionDone(content', base, sec);
  }

  method AddFooter(content: string, ghost base: seq<string>) returns (content': string)
    requires content == Render(base)
    ensures content' == Render(base + FooterLines())
  {
    ghost var sec := FooterLines();
    content' := Put(content, base, sec, 0, CenterText(Separator, LineWidth) + "\n");
    content' := Put(content', base, sec, 1, CenterText("OFFICIAL RECEIPT", LineWidth) + "\n");
    content' := Put(content', base, sec, 2, CenterText("Keep as proof of payment", LineWidth) + "\n");
    content' := Put(content', base, sec, 3, CenterText(Separator, LineWidth) + "\n");
    SectionDone(content', base, sec);
  }

  /* ---------- the client and its `isInitialized` flag ---------- */

  /** What the device will answer next: the sentinels, whether a printer is fitted, the next
      two `sdkInit` statuses, the next status read and the next `setPrintStart`. */
  datatype Replies = Replies(sdkOk: int, paperOut: int, hasPrinter: bool,
                             firstInit: int, secondInit: int, status: int, start: int)

  function RepliesOf(d: Device): Replies
    reads d
  {
    Replies(d.sdkOk, d.paperOut, d.hasPrinter, d.NextInit(0), d.NextInit(1), d.NextStatus(), d.NextStart())
  }

  /** `await CS30Printer.initializePrinter()` inside `try`: a resolved value is the result, a
      rejection is caught and gives false. */
  function Awaited(r: Outcome<bool>): (b: bool)
    ensures b <==> r.Resolved? && r.value
  {
    match r
    case Resolved(v) => v
    case Rejected(_) => false
  }

  /** The message `printText` throws when its lazy initialisation fails. */
  const InitFailureMessage: string := "Failed to initialize printer"

  /** Whether `printText` gets past its initialisation step. */
  predicate InitDone(initialized: bool, a: Replies) {
    initialized || Awaited(InitOutcome(a.sdkOk, a.firstInit, a.secondInit))
  }

  /** The device calls of `printText` on an available module: `initializePrinter` first when
      the flag is not set, then the native `printText` unless that initialisation failed. */
  function LazyPrintEvents(initialized: bool, a: Replies, text: string): seq<Event> {
    (if initialized then [] else InitEvents(a.sdkOk, a.firstInit, a.secondInit))
    + (if InitDone(initialized, a) then PrintEvents(a.hasPrinter, a.paperOut, text, a.status, a.start) else [])
  }

  function LazyPrintAdded(initialized: bool, a: Replies, text: string): seq<string> {
    if InitDone(initialized, a) then PrintAdded(a.hasPrinter, a.paperOut, text, a.status) else []
  }

  function LazyPrintOutcome(initialized: bool, a: Replies, text: string): Outcome<bool> {
    if InitDone(initialized, a) then PrintOutcome(a.hasPrinter, a.sdkOk, a.paperOut, a.status, a.start)
    else Rejected(ScriptError(InitFailureMessage))
  }

  /** `printText` once its initialisation step succeeded: that step's calls, then the native
      `printText`'s. */
  lemma LazyAfterInit(initialized: bool, a: Replies, text: string)
    requires InitDone(initialized, a)
    ensures LazyPrintEvents(initialized, a, text)
      == (if initialized then [] else InitEvents(a.sdkOk, a.firstInit, a.secondInit))
         + PrintEvents(a.hasPrinter, a.paperOut, text, a.status, a.start)
    ensures LazyPrintAdded(initialized, a, text) == PrintAdded(a.hasPrinter, a.paperOut, text, a.status)
    ensures LazyPrintOutcome(initialized, a, text) == PrintOutcome(a.hasPrinter, a.sdkOk, a.paperOut, a.status, a.start)
  {
  }

  /** `printText` when its initialisation step failed: only that step's calls. */
  lemma LazyAfterFailedInit(initialized: bool, a: Replies, text: string)
    requires !InitDone(initialized, a)
    ensures !initialized
    ensures LazyPrintEvents(initialized, a, text) == InitEvents(a.sdkOk, a.firstInit, a.secondInit)
    ensures LazyPrintAdded(initialized, a, text) == []
    ensures LazyPrintOutcome(initialized, a, text) == Rejected(ScriptError(InitFailureMessage))
  {
    assert LazyPrintEvents(initialized, a, text) == InitEvents(a.sdkOk, a.firstInit, a.secondInit) + [];
  }

  /** Once initialised, `printText` makes no `sdkInit` call: its calls and its outcome are
      those of the native `printText` alone. */
  lemma InitializedPrintsAtOnce(a: Replies, text: string)
    ensures LazyPrintEvents(true, a, text) == PrintEvents(a.hasPrinter, a.paperOut, text, a.status, a.start)
    ensures Count(LazyPrintEvents(true, a, text), InitCall) == 0
    ensures LazyPrintOutcome(true, a, text) == PrintOutcome(a.hasPrinter, a.sdkOk, a.paperOut, a.status, a.start)
  {
    assert [] + PrintEvents(a.hasPrinter, a.paperOut, text, a.status, a.start)
        == PrintEvents(a.hasPrinter, a.paperOut, text, a.status, a.start);
    PrintEventsShape(a.hasPrinter, a.paperOut, text, a.status, a.start);
  }

  /** When the flag is not set, `initializePrinter` runs once, before anything else: it opens
      the trace with its one or two `sdkInit` calls, and the native print calls, if any,
      follow it. */
  lemma UninitializedInitsFirst(a: Replies, text: string)
    ensures var t, init := LazyPrintEvents(false, a, text), InitEvents(a.sdkOk, a.firstInit, a.secondInit);
      && init <= t && t[0] == SdkInit(a.firstInit)
      && Count(t, InitCall) == (if a.firstInit == a.sdkOk then 1 else 2)
      && Count(t, StatusCall) == (if InitDone(false, a) && a.hasPrinter then 1 else 0)
  {
    var init := InitEvents(a.sdkOk, a.firstInit, a.secondInit);
    var rest := if InitDone(false, a) then PrintEvents(a.hasPrinter, a.paperOut, text, a.status, a.start) else [];
    assert LazyPrintEvents(false, a, text) == init + rest;
    InitEventsShape(a.sdkOk, a.firstInit, a.secondInit);
    PrintEventsShape(a.hasPrinter, a.paperOut, text, a.status, a.start);
    CountAppend(init, rest, InitCall);
    CountAppend(init, rest, StatusCall);
  }

  /** A failed lazy initialisation throws "Failed to initialize printer": the native
      `printText` is never reached, so nothing is read, appended or started. */
  lemma FailedInitPrintsNothing(a: Replies, text: string)
    requires !InitDone(false, a)
    ensures var t := LazyPrintEvents(false, a, text);
      && t == InitEvents(a.sdkOk, a.firstInit, a.secondInit)
      && Count(t, StatusCall) == 0 && Count(t, AppendCall) == 0 && Count(t, StartCall) == 0
    ensures LazyPrintAdded(false, a, text) == []
    ensures LazyPrintOutcome(false, a, text) == Rejected(ScriptError(InitFailureMessage))
  {
    assert LazyPrintEvents(false, a, text) == InitEvents(a.sdkOk, a.firstInit, a.secondInit) + [];
    InitEventsShape(a.sdkOk, a.firstInit, a.secondInit);
  }

  /** The print is started exactly when initialisation is done (or not needed), a printer is
      fitted and the paper is not out; only then does the buffer grow. */
  lemma StartedIff(initialized: bool, a: Replies, text: string)
    ensures var t := LazyPrintEvents(initialized, a, text);
      && (Count(t, StartCall) == 1 <==> InitDone(initialized, a) && PrintProceeds(a.hasPrinter, a.paperOut, a.status))
      && Count(t, StartCall) <= 1
      && (LazyPrintAdded(initialized, a, text) != [] <==> Count(t, StartCall) == 1)
  {
    var init := if initialized then [] else InitEvents(a.sdkOk, a.firstInit, a.secondInit);
    var rest := if InitDone(initialized, a) then PrintEvents(a.hasPrinter, a.paperOut, text, a.status, a.start) else [];
    if !initialized {
      InitEventsShape(a.sdkOk, a.firstInit, a.secondInit);
    }
    PrintEventsShape(a.hasPrinter, a.paperOut, text, a.status, a.start);
    CountAppend(init, rest, StartCall);
  }

  class PrinterService {
    /** `Platform.OS === 'android'`. */
    const onAndroid: bool
    /** `NativeModules.CS30Printer`, absent off the handheld. */
    const native: CS30PrinterModule?
    var isInitialized: bool

    constructor (onAndroid: bool, native: CS30PrinterModule?)
      ensures this.onAndroid == onAndroid && this.native == native && !isInitialized
    {
      this.onAndroid, this.native := onAndroid, native;
      isInitialized := false;
    }

    /** `isAvailable()`. */
    predicate IsAvailable() {
      onAndroid && native != null
    }

    /** The device behind the native module, when there is one. */
    function Devices(): set<Device> {
      if native == null then {} else {native.device}
    }

    /** `initialize()`: false without the module and no device call; otherwise the flag
        becomes the awaited result of `initializePrinter`, false when it rejects. */
    method Initialize() returns (result: bool)
      modifies this`isInitialized, Devices()`log, Devices()`inits, Devices()`powerOns
      ensures !IsAvailable() ==> !result && isInitialized == old(isInitialized) && unchanged(Devices())
      ensures IsAvailable() ==>
        var d := native.device;
        var s1, s2 := old(d.NextInit(0)), old(d.NextInit(1));
        && d.log == old(d.log) + InitEvents(d.sdkOk, s1, s2)
        && d.inits == old(d.inits) + (if s1 == d.sdkOk then 1 else 2)
        && d.powerOns == old(d.powerOns) + (if s1 == d.sdkOk then 0 else 1)
        && result == Awaited(InitOutcome(d.sdkOk, s1, s2))
        && isInitialized == result
    {
      if !IsAvailable() {
        return false;
      }
      var r := native.InitializePrinter();
      result := Awaited(r);
      isInitialized := result;
    }

    /** `getStatus()`: null without the module or when the native call rejects. */
    method GetStatus() returns (status: Option<PrinterStatus>)
      modifies Devices()`log, Devices()`statusReads
      ensures !IsAvailable() ==> status == None && unchanged(Devices())
      ensures IsAvailable() ==>
        var d := native.device;
        && status == (if d.hasPrinter then Some(StatusOf(d.sdkOk, d.paperOut, old(d.NextStatus()))) else None)
        && d.log == old(d.log) + (if d.hasPrinter then [StatusRead(old(d.NextStatus()))] else [])
        && d.statusReads == old(d.statusReads) + (if d.hasPrinter then 1 else 0)
    {
      if !IsAvailable() {
        return None;
      }
      var r := native.GetPrinterStatus();
      status := if r.Resolved? then Some(r.value) else None;
    }

    /** `isReady()`: `status?.isReady ?? false`, so true exactly when a status was read and
        it is the OK sentinel. */
    method IsReady() returns (ready: bool)
      modifies Devices()`log, Devices()`statusReads
      ensures ready <==> IsAvailable() && native.device.hasPrinter && old(native.device.NextStatus()) == native.device.sdkOk
      ensures !IsAvailable() ==> unchanged(Devices())
      ensures IsAvailable() ==>
        var d := native.device;
        && d.log == old(d.log) + (if d.hasPrinter then [StatusRead(old(d.NextStatus()))] else [])
        && d.statusReads == old(d.statusReads) + (if d.hasPrinter then 1 else 0)
    {
      var status := GetStatus();
      ready := status.Some? && status.value.isReady;
    }

    /** The whole effect of `printText(text)` on an available module settling as `r`. */
    twostate predicate PrintedWith(text: string, new r: Outcome<bool>)
      requires IsAvailable()
      reads this, Devices()
    {
      var d := native.device;
      var a := old(RepliesOf(d));
      var started := old(isInitialized);
      && isInitialized == InitDone(started, a)
      && d.inits == old(d.inits) + (if started then 0 else if a.firstInit == a.sdkOk then 1 else 2)
      && d.powerOns == old(d.powerOns) + (if started || a.firstInit == a.sdkOk then 0 else 1)
      && d.log == old(d.log) + LazyPrintEvents(started, a, text)
      && d.buffer == old(d.buffer) + LazyPrintAdded(started, a, text)
      && d.statusReads == old(d.statusReads) + (if InitDone(started, a) && a.hasPrinter then 1 else 0)
      && d.starts == old(d.starts) + (if InitDone(started, a) && PrintProceeds(a.hasPrinter, a.paperOut, a.status) then 1 else 0)
      && r == LazyPrintOutcome(started, a, text)
    }

    /** `printText(text)`: false without the module; otherwise initialise first when the flag
        is not set, throwing when that fails, then settle as the native `printText` does. */
    method PrintText(text: string) returns (r: Outcome<bool>)
      modifies this`isInitialized, Devices()`log, Devices()`inits, Devices()`powerOns, Devices()`buffer, Devices()`statusReads, Devices()`starts
      ensures !IsAvailable() ==> r == Resolved(false) && isInitialized == old(isInitialized) && unchanged(Devices())
      ensures IsAvailable() ==> PrintedWith(text, r)
    {
      if !IsAvailable() {
        return Resolved(false);
      }
      ghost var d, a, started := native.device, RepliesOf(native.device), isInitialized;
      ghost var init := if started then [] else InitEvents(a.sdkOk, a.firstInit, a.secondInit);
      var initialized := EnsureInitialized();
      if !initialized {
        LazyAfterFailedInit(started, a, text);
        return Rejected(ScriptError(InitFailureMessage));
      }
      ghost var log1 := d.log;
      r := native.PrintText(text);
      ghost var printed := PrintEvents(a.hasPrinter, a.paperOut, text, a.status, a.start);
      assert d.log == log1 + printed;
      assert d.log == old(d.log) + (init + printed);
      LazyAfterInit(started, a, text);
    }

    /** The first step of `printText`: `initialize()` when the flag is not set. */
    method EnsureInitialized() returns (ok: bool)
      requires IsAvailable()
      modifies this`isInitialized, Devices()`log, Devices()`inits, Devices()`powerOns
      ensures var d, a := native.device, old(RepliesOf(native.device));
        && ok == InitDone(old(isInitialized), a) && isInitialized == ok
        && d.log == old(d.log) + (if old(isInitialized) then [] else InitEvents(a.sdkOk, a.firstInit, a.secondInit))
        && d.inits == old(d.inits) + (if old(isInitialized) then 0 else if a.firstInit == a.sdkOk then 1 else 2)
        && d.powerOns == old(d.powerOns) + (if old(isInitialized) || a.firstInit == a.sdkOk then 0 else 1)
    {
      ok := isInitialized;
      if !ok {
        ok := Initialize();
      }
    }

    /** `printReceipt(data)`: format the receipt, then print it as `printText` does. */
    method PrintReceipt(data: PrintData) returns (r: Outcome<bool>)
      modifies this`isInitialized, Devices()`log, Devices()`inits, Devices()`powerOns, Devices()`buffer, Devices()`statusReads, Devices()`starts
      ensures !IsAvailable() ==> r == Resolved(false) && isInitialized == old(isInitialized) && unchanged(Devices())
      ensures IsAvailable() ==> PrintedWith(Render(ReceiptLines(data)), r)
    {
      var content := FormatReceiptContent(data);
      r := PrintText(content);
    }
  }
}
