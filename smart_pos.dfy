/** utils/SmartPOSPrint.ts: the second printing front end, a set of static calls over the
    native module that each check first that the module exists, and its own 32-column
    receipt layout. */
module SmartPos {
  import opened PrinterTypes
  import opened Text
  import opened Numbers
  import opened Offenses
  import opened Vendor
  import opened CS30Printer
  import PrinterClient

  /** `maxWidth` of `centerText` and `formatLine`. */
  const MaxWidth: int := 32

  /** The offender record of this front end: every field a plain string. */
  datatype PosOffenderDetails = PosOffenderDetails(
    name: string,
    idNumber: string,
    licenseNumber: string,
    phoneNumber: string,
    vehicleRegistration: string,
    location: string)

  /** `paymentDetails: any`, read as `paymentDetails?.transactionId`: it may be missing. */
  datatype PosPrintData = PosPrintData(
    receiptData: ReceiptData,
    selectedOffense: SelectedOffense,
    paymentMethod: string,
    paymentDetails: Option<PaymentDetails>,
    offenderDetails: PosOffenderDetails)

  /** `centerText(text)`: the text centred in 32 columns as the printer client centres it,
      with the newline included. */
  function CenterText(text: string): (r: string)
    ensures r == PrinterClient.CenterText(text, MaxWidth) + "\n"
    ensures |text| >= MaxWidth ==> r == text + "\n"
    ensures |text| <= MaxWidth ==> |r| <= MaxWidth + 1
  {
    Repeat(' ', CenterPadding(|text|, MaxWidth)) + text + "\n"
  }

  /** `formatLine(label, value)`: when both fit, one 32-column line with the label flush
      left and the value flush right; otherwise the label and the value on lines of their
      own. */
  function FormatLine(labelText: string, value: string): (r: string)
    ensures |labelText| + |value| <= MaxWidth ==>
      && |r| == MaxWidth + 1 && r[MaxWidth] == '\n'
      && r[..|labelText|] == labelText && r[MaxWidth - |value|..MaxWidth] == value
      && (forall i :: |labelText| <= i < MaxWidth - |value| ==> r[i] == ' ')
    ensures |labelText| + |value| > MaxWidth ==> r == Render([labelText, value])
  {
    if |labelText| + |value| <= MaxWidth then
      var line := labelText + Repeat(' ', MaxWidth - (|labelText| + |value|)) + value;
      assert line[..|labelText|] == labelText;
      assert line[MaxWidth - |value|..] == value;
      line + "\n"
    else
      assert [labelText, value][..1] == [labelText];
      assert [labelText][..0] == [];
      assert Render([labelText]) == labelText + "\n";
      assert Render([labelText, value]) == Render([labelText]) + value + "\n";
      labelText + "\n" + value + "\n"
  }

  /* ---------- the receipt, line by line ---------- */

  /** `centerText(x)` without its newline. */
  function Centered(text: string): string {
    PrinterClient.CenterText(text, MaxWidth)
  }

  function DetailsLines(r: ReceiptData): seq<string> {
    ["Receipt No: " + r.receiptNumber, "Date: " + r.date, "Time: " + r.time, ""]
  }

  function OffenderLines(o: PosOffenderDetails): seq<string> {
    ["OFFENDER DETAILS", Dash, "Name: " + o.name]
    + (if LicenseShown(o.licenseNumber) then ["License: " + o.licenseNumber] else [])
    + [""]
  }

  /** `if (paymentDetails?.transactionId)`: the details are there and the id is not empty. */
  predicate TransactionShown(p: Option<PaymentDetails>) {
    p.Some? && p.value.transactionId != ""
  }

  function PaymentLines(paymentMethod: string, p: Option<PaymentDetails>): seq<string> {
    ["PAYMENT DETAILS", Dash, "Method: " + paymentMethod]
    + (if TransactionShown(p) then ["Transaction: " + p.value.transactionId] else [])
    + ["Status: PAID", ""]
  }

  function OffenseSection(s: SelectedOffense): seq<string> {
    Listing("SELECTED OFFENSES", s.name, s.code, "TOTAL PAID: KES " + LocaleText(s.fine))
  }

  /** The footer: four centred lines, then `"\n\n\n"`, three empty lines. */
  function FooterLines(): seq<string> {
    [Centered(Dash), Centered("Official Traffic Offense Receipt"),
     Centered("Keep as proof of payment"), Centered(Dash), "", "", ""]
  }

  /** The receipt's lines: the header and the officer section as the printer client prints
      them; the payment section before the offenses. */
  function ReceiptLines(data: PosPrintData): seq<string> {
    PrinterClient.HeaderLines() + DetailsLines(data.receiptData) + OffenderLines(data.offenderDetails)
    + PaymentLines(data.paymentMethod, data.paymentDetails) + OffenseSection(data.selectedOffense)
    + PrinterClient.OfficerLines(data.receiptData) + FooterLines()
  }

  /** The offender section never has a `Vehicle:` line; a `License:` line is printed exactly when the
      number is non-empty and not "N/A". */
  lemma OffenderLayout(o: PosOffenderDetails)
    ensures var s := OffenderLines(o);
      && |s| == 4 + (if LicenseShown(o.licenseNumber) then 1 else 0)
      && s[0] == "OFFENDER DETAILS" && s[1] == Dash && s[2] == "Name: " + o.name
      && s[|s| - 1] == ""
      && (("License: " + o.licenseNumber in s) <==> LicenseShown(o.licenseNumber))
      && (LicenseShown(o.licenseNumber) ==> s[3] == "License: " + o.licenseNumber)
      && (forall i :: 0 <= i < |s| ==> !StartsWith(s[i], "Vehicle: "))
  {
    var s := OffenderLines(o);
    var lic := "License: " + o.licenseNumber;
    assert lic[0] == 'L';
    forall i | 0 <= i < |s|
      ensures !StartsWith(s[i], "Vehicle: ")
      ensures !LicenseShown(o.licenseNumber) ==> s[i] != lic
    {
      assert |s[i]| == 0 || (s[i][0] != 'V' && (!LicenseShown(o.licenseNumber) ==> s[i][0] != 'L'));
    }
  }

  /** A `Transaction:` line is printed exactly when payment details are given with a
      non-empty id; `Status: PAID` is always printed, just before the closing blank line. */
  lemma PaymentLayout(paymentMethod: string, p: Option<PaymentDetails>)
    ensures var s := PaymentLines(paymentMethod, p);
      && |s| == 5 + (if TransactionShown(p) then 1 else 0)
      && s[0] == "PAYMENT DETAILS" && s[1] == Dash && s[2] == "Method: " + paymentMethod
      && ((exists i :: 0 <= i < |s| && StartsWith(s[i], "Transaction: ")) <==> TransactionShown(p))
      && (TransactionShown(p) ==> s[3] == "Transaction: " + p.value.transactionId)
      && s[|s| - 2] == "Status: PAID" && s[|s| - 1] == ""
  {
    var s := PaymentLines(paymentMethod, p);
    if TransactionShown(p) {
      assert StartsWith(s[3], "Transaction: ");
    } else {
      forall i | 0 <= i < |s|
        ensures !StartsWith(s[i], "Transaction: ")
      {
        assert |s[i]| == 0 || s[i][0] != 'T';
      }
    }
  }

  /** The section headings in this front end's order: offender, payment, offense, officer,
      each after the lines of the section before it. */
  lemma ReceiptHeadings(data: PosPrintData)
    ensures var o, p, f := OffenderLines(data.offenderDetails), PaymentLines(data.paymentMethod, data.paymentDetails),
      OffenseSection(data.selectedOffense);
      var r, a, b, c := ReceiptLines(data), 7 + |o|, 7 + |o| + |p|, 7 + |o| + |p| + |f|;
      && |r| == c + 12
      && r[7] == "OFFENDER DETAILS" && r[a] == "PAYMENT DETAILS"
      && r[b] == "SELECTED OFFENSES" && r[c] == "OFFICER DETAILS"
  {
    SevenSlices(PrinterClient.HeaderLines(), DetailsLines(data.receiptData), OffenderLines(data.offenderDetails),
      PaymentLines(data.paymentMethod, data.paymentDetails), OffenseSection(data.selectedOffense),
      PrinterClient.OfficerLines(data.receiptData), FooterLines());
  }

  /** The total line, here `TOTAL PAID`, and `Status: PAID` are on every receipt. */
  lemma AlwaysPrinted(data: PosPrintData)
    ensures var r := ReceiptLines(data);
      && "TOTAL PAID: KES " + LocaleText(data.selectedOffense.fine) in r
      && "Status: PAID" in r
  {
    var s := data.selectedOffense;
    ListingLayout("SELECTED OFFENSES", s.name, s.code, "TOTAL PAID: KES " + LocaleText(s.fine));
    PaymentLayout(data.paymentMethod, data.paymentDetails);
    var f, p := OffenseSection(s), PaymentLines(data.paymentMethod, data.paymentDetails);
    assert "TOTAL PAID: KES " + LocaleText(s.fine) == f[|f| - 2];
    assert "Status: PAID" == p[|p| - 2];
  }

  /** The printed text ends with the four centred footer lines, each with its newline, and
      then `"\n\n\n"`. */
  lemma EndsWithFooter(data: PosPrintData)
    ensures var t := Render(ReceiptLines(data));
      var f := CenterText(Dash) + CenterText("Official Traffic Offense Receipt")
        + CenterText("Keep as proof of payment") + CenterText(Dash) + "\n\n\n";
      |f| <= |t| && t[|t| - |f|..] == f
  {
    var footer := FooterLines();
    var body := PrinterClient.HeaderLines() + DetailsLines(data.receiptData) + OffenderLines(data.offenderDetails)
      + PaymentLines(data.paymentMethod, data.paymentDetails) + OffenseSection(data.selectedOffense)
      + PrinterClient.OfficerLines(data.receiptData);
    RenderAppend(body, footer);
    FooterText();
    var t := Render(ReceiptLines(data));
    assert t == Render(body) + Render(footer);
    assert t[|Render(body)|..] == Render(footer);
  }

  /** The footer lines, rendered, are the four `centerText` pieces and `"\n\n\n"`. */
  lemma FooterText()
    ensures Render(FooterLines()) == CenterText(Dash) + CenterText("Official Traffic Offense Receipt")
      + CenterText("Keep as proof of payment") + CenterText(Dash) + "\n\n\n"
  {
    FourThenBlanks(Centered(Dash), Centered("Official Traffic Offense Receipt"),
      Centered("Keep as proof of payment"), Centered(Dash));
  }

  lemma FourThenBlanks(a: string, b: string, c: string, d: string)
    ensures Render([a, b, c, d, "", "", ""]) == (a + "\n") + (b + "\n") + (c + "\n") + (d + "\n") + "\n\n\n"
  {
    var four := [a, b, c, d];
    assert [a][..0] == [];
    assert Render([a]) == a + "\n";
    assert [a, b][..1] == [a];
    assert Render([a, b]) == (a + "\n") + (b + "\n");
    assert [a, b, c][..2] == [a, b];
    assert Render([a, b, c]) == (a + "\n") + (b + "\n") + (c + "\n");
    assert four[..3] == [a, b, c];
    assert Render(four) == (a + "\n") + (b + "\n") + (c + "\n") + (d + "\n");
    var blanks := ["", "", ""];
    assert [""][..0] == [];
    assert Render([""]) == "\n";
    assert ["", ""][..1] == [""];
    assert Render(["", ""]) == "\n\n";
    assert blanks[..2] == ["", ""];
    assert Render(blanks) == "\n\n\n";
    RenderAppend(four, blanks);
    assert four + blanks == [a, b, c, d, "", "", ""];
  }

  /* ---------- formatReceiptContent ---------- */

  /** `formatReceiptContent`: `content` grows by `+=`, one piece at a time, section after
      section, with a loop over the offenses on the multi-offense path. */
  method FormatReceiptContent(data: PosPrintData) returns (content: string)
    ensures content == Render(ReceiptLines(data))
  {
    content := AddHeader("", []);
    assert [] + PrinterClient.HeaderLines() == PrinterClient.HeaderLines();
    ghost var base := PrinterClient.HeaderLines();
    content := AddDetails(content, base, data.receiptData);
    base := base + DetailsLines(data.receiptData);
    content := AddOffender(content, base, data.offenderDetails);
    base := base + OffenderLines(data.offenderDetails);
    content := AddPayment(content, base, data.paymentMethod, data.paymentDetails);
    base := base + PaymentLines(data.paymentMethod, data.paymentDetails);
    content := AddListing(content, base, "SELECTED OFFENSES", data.selectedOffense.name, data.selectedOffense.code,
      "TOTAL PAID: KES " + LocaleText(data.selectedOffense.fine));
    base := base + OffenseSection(data.selectedOffense);
    content := AddOfficer(content, base, data.receiptData);
    base := base + PrinterClient.OfficerLines(data.receiptData);
    content := AddFooter(content, base);
  }

  method AddHeader(content: string, ghost base: seq<string>) returns (content': string)
    requires content == Render(base)
    ensures content' == Render(base + PrinterClient.HeaderLines())
  {
    ghost var sec := PrinterClient.HeaderLines();
    content' := Put(content, base, sec, 0, CenterText("TRAFFIC OFFENSE RECEIPT"));
    content' := Put(content', base, sec, 1, CenterText(PrinterClient.Separator));
    content' := Put(content', base, sec, 2, "\n");
    SectionDone(content', base, sec);
  }

  method AddDetails(content: string, ghost base: seq<string>, receiptData: ReceiptData) returns (content': string)
    requires content == Render(base)
    ensures content' == Render(base + DetailsLines(receiptData))
  {
    ghost var sec := DetailsLines(receiptData);
    content' := Put(content, base, sec, 0, "Receipt No: " + receiptData.receiptNumber + "\n");
    content' := Put(content', base, sec, 1, "Date: " + receiptData.date + "\n");
    content' := Put(content', base, sec, 2, "Time: " + receiptData.time + "\n");
    content' := Put(content', base, sec, 3, "\n");
    SectionDone(content', base, sec);
  }

  method AddOffender(content: string, ghost base: seq<string>, offenderDetails: PosOffenderDetails) returns (content': string)
    requires content == Render(base)
    ensures content' == Render(base + OffenderLines(offenderDetails))
  {
    ghost var sec := OffenderLines(offenderDetails);
    content' := Put(content, base, sec, 0, "OFFENDER DETAILS" + "\n");
    content' := Put(content', base, sec, 1, Dash + "\n");
    content' := Put(content', base, sec, 2, "Name: " + offenderDetails.name + "\n");
    ghost var k := 3;
    if offenderDetails.licenseNumber != "" && offenderDetails.licenseNumber != "N/A" {
      content' := Put(content', base, sec, k, "License: " + offenderDetails.licenseNumber + "\n");
      k := k + 1;
    }
    content' := Put(content', base, sec, k, "\n");
    SectionDone(content', base, sec);
  }

  method AddPayment(content: string, ghost base: seq<string>, paymentMethod: string, paymentDetails: Option<PaymentDetails>)
      returns (content': string)
    requires content == Render(base)
    ensures content' == Render(base + PaymentLines(paymentMethod, paymentDetails))
  {
    ghost var sec := PaymentLines(paymentMethod, paymentDetails);
    content' := Put(content, base, sec, 0, "PAYMENT DETAILS" + "\n");
    content' := Put(content', base, sec, 1, Dash + "\n");
    content' := Put(content', base, sec, 2, "Method: " + paymentMethod + "\n");
    ghost var k := 3;
    if paymentDetails.Some? && paymentDetails.value.transactionId != "" {
      content' := Put(content', base, sec, k, "Transaction: " + paymentDetails.value.transactionId + "\n");
      k := k + 1;
    }
    content' := Put(content', base, sec, k, "Status: PAID" + "\n");
    content' := Put(content', base, sec, k + 1, "\n");
    SectionDone(content', base, sec);
  }

  method AddOfficer(content: string, ghost base: seq<string>, receiptData: ReceiptData) returns (content': string)
    requires content == Render(base)
    ensures content' == Render(base + PrinterClient.OfficerLines(receiptData))
  {
    ghost var sec := PrinterClient.OfficerLines(receiptData);
    content' := Put(content, base, sec, 0, "OFFICER DETAILS" + "\n");
    content' := Put(content', base, sec, 1, Dash + "\n");
    content' := Put(content', base, sec, 2, "Officer: " + receiptData.officer + "\n");
    content' := Put(content', base, sec, 3, "Badge: " + receiptData.badgeNumber + "\n");
    content' := Put(content', base, sec, 4, "\n");
    SectionDone(content', base, sec);
  }

  method AddFooter(content: string, ghost base: seq<string>) returns (content': string)
    requires content == Render(base)
    ensures content' == Render(base + FooterLines())
  {
    ghost var sec := FooterLines();
    content' := Put(content, base, sec, 0, CenterText(Dash));
    content' := Put(content', base, sec, 1, CenterText("Official Traffic Offense Receipt"));
    content' := Put(content', base, sec, 2, CenterText("Keep as proof of payment"));
    content' := Put(content', base, sec, 3, CenterText(Dash));
    BlankLines(base, sec, 4);
    content' := content' + "\n\n\n";
    SectionDone(content', base, sec);
  }

  /** `"\n\n\n"` is three empty lines of a section. */
  lemma BlankLines(base: seq<string>, sec: seq<string>, k: nat)
    requires k + 3 <= |sec| && sec[k] == "" && sec[k + 1] == "" && sec[k + 2] == ""
    ensures Printed(base, sec, k + 3) == Printed(base, sec, k) + "\n\n\n"
  {
    assert Printed(base, sec, k + 1) == Printed(base, sec, k) + "\n";
    assert Printed(base, sec, k + 2) == Printed(base, sec, k) + "\n" + "\n";
  }

  /* ---------- the static calls over the native module ---------- */

  /** `CS30Printer` as imported: `null` when the native module is not linked in. */
  function DevicesOf(native: CS30PrinterModule?): set<Device> {
    if native == null then {} else {native.device}
  }

  /** What `getPrinterStatus` resolves with: `-1` on failure, otherwise whatever the native
      call resolved with, which is a status record although the declared type is a number. */
  datatype StatusResult = Number(n: int) | Object(status: PrinterStatus)

  /** `initializeSDK()`: false without the module; otherwise the awaited result of
      `initializePrinter`, false when it rejects. */
  method InitializeSdk(native: CS30PrinterModule?) returns (ok: bool)
    modifies DevicesOf(native)`log, DevicesOf(native)`inits, DevicesOf(native)`powerOns
    ensures native == null ==> !ok
    ensures native != null ==>
      var d := native.device;
      var s1, s2 := old(d.NextInit(0)), old(d.NextInit(1));
      && d.log == old(d.log) + InitEvents(d.sdkOk, s1, s2)
      && d.inits == old(d.inits) + (if s1 == d.sdkOk then 1 else 2)
      && d.powerOns == old(d.powerOns) + (if s1 == d.sdkOk then 0 else 1)
      && ok == PrinterClient.Awaited(InitOutcome(d.sdkOk, s1, s2))
  {
    if native == null {
      return false;
    }
    var r := native.InitializePrinter();
    ok := PrinterClient.Awaited(r);
  }

  /** `initializeSDK()` reports success exactly when one of the one or two `sdkInit`
      calls answered OK. */
  lemma InitializeSdkIff(sdkOk: int, s1: int, s2: int)
    ensures PrinterClient.Awaited(InitOutcome(sdkOk, s1, s2)) <==> s1 == sdkOk || s2 == sdkOk
  {
    InitOutcomeCases(sdkOk, s1, s2);
  }

  /** `getPrinterStatus()`: -1 without the module or when the native call rejects (no
      printer); otherwise the status read once and mapped. */
  method GetPrinterStatus(native: CS30PrinterModule?) returns (r: StatusResult)
    modifies DevicesOf(native)`log, DevicesOf(native)`statusReads
    ensures native == null ==> r == Number(-1)
    ensures native != null ==>
      var d := native.device;
      && r == (if d.hasPrinter then Object(StatusOf(d.sdkOk, d.paperOut, old(d.NextStatus()))) else Number(-1))
      && d.log == old(d.log) + (if d.hasPrinter then [StatusRead(old(d.NextStatus()))] else [])
      && d.statusReads == old(d.statusReads) + (if d.hasPrinter then 1 else 0)
  {
    if native == null {
      return Number(-1);
    }
    var status := native.GetPrinterStatus();
    r := if status.Resolved? then Object(status.value) else Number(-1);
  }

  /** `printText(text)`: false without the module; otherwise it settles as the native
      `printText` does, a rejection being thrown on. */
  method PrintText(native: CS30PrinterModule?, text: string) returns (r: Outcome<bool>)
    modifies DevicesOf(native)`log, DevicesOf(native)`buffer, DevicesOf(native)`statusReads, DevicesOf(native)`starts
    ensures native == null ==> r == Resolved(false)
    ensures native != null ==> native.PrintedText(text, r)
  {
    if native == null {
      return Resolved(false);
    }
    r := native.PrintText(text);
  }

  /** `printReceipt(data)`: false without the module, before anything is formatted;
      otherwise the formatted receipt is printed as by `printText`. */
  method PrintReceipt(native: CS30PrinterModule?, data: PosPrintData) returns (r: Outcome<bool>)
    modifies DevicesOf(native)`log, DevicesOf(native)`buffer, DevicesOf(native)`statusReads, DevicesOf(native)`starts
    ensures native == null ==> r == Resolved(false)
    ensures native != null ==> native.PrintedText(Render(ReceiptLines(data)), r)
  {
    if native == null {
      return Resolved(false);
    }
    var content := FormatReceiptContent(data);
    r := native.PrintText(content);
  }
}
