# Receipt printing on the CS30 handheld, modelled in Dafny

The system is a React Native traffic-fine application. After an officer records an offense and
takes payment, it prints a 32-column receipt on the CS30 handheld's thermal printer. The model
covers the printing path from the vendor SDK up to the two JavaScript front ends:

- **Vendor** (`vendor.dfy`): the ZCS SDK (`DriverManager`, `baseSysDevice`, `printer`) as an
  abstract `Device` class.
  - Every status it reports comes from a script fixed when the device is made: the k-th
    `sdkInit` returns `initReply(k)`, and status reads and `setPrintStart` work the same way.
  - `SDK_OK` and `SDK_PRN_STATUS_PAPEROUT` are two distinct sentinels whose values are left open.
  - Every call, and every `Thread.sleep` of its callers, is recorded in an event log, and the
    device counts its `sdkInit` calls, power-ons, status reads and `setPrintStart` calls.
  - The print buffer is a field that grows in place.
- **CS30Printer** (`cs30_printer.dfy`): the Kotlin native module `CS30PrinterModule` as a class
  over the device. It models:
  - the two-attempt `initializePrinter`;
  - `getPrinterStatus` and the status map it resolves with, including `getStatusText`;
  - `printText`, with its null-printer and paper-out rejections, the four buffer appends and
    `setPrintStart`;
  - `printReceipt`, which delegates to `printText`.

  A promise settles as `Outcome` (`Resolved(value)` or `Rejected(NativeError(code, message))`).
  Its device calls are stated as a trace.
- **PrinterClient** (`printer_service.dfy`): the `PrinterService` class of
  `services/PrinterService.ts`, with its `isInitialized` field, and its `formatReceiptContent`.
  - `printText` initialises lazily and throws "Failed to initialize printer" when that fails.
  - `getStatus`, `isReady`, `initialize` and `printReceipt` are methods of the class.
- **SmartPos** (`smart_pos.dfy`): the static calls of `utils/SmartPOSPrint.ts`.
  - Each call short-circuits when the native module is missing.
  - This front end has its own receipt layout: no vehicle line, payment before the offenses,
    `TOTAL PAID`, and a `"\n"`-terminated `centerText`. It also has `formatLine`.
- **MainActivity** (`main_activity.dfy`): the start-up retry chain of `onCreate`. It makes up
  to five `sdkInit` attempts, with a power-on and a 3000 ms wait before the second attempt and
  a 2000 ms wait before each later one.
- **Shared modules** (`text.dfy`, `numbers.dfy`, `offenses.dfy`, `types.dfy`):
  - the JavaScript string operations the formatters rely on (`repeat`, `split`, `join`);
  - the rendering of a list of lines as text;
  - `"$status"` and en-US `toLocaleString` for integers;
  - the offense block that both formatters write identically;
  - the record types of `types/CS30Printer.ts`.

Each formatter is a method that builds `content` with `+=`, section after section, and loops
over the offenses. It is proved equal to `Render(ReceiptLines(data))`, a line-list
specification. The layout properties (which lines appear and when, the order of the sections,
the multi-offense rule) are lemmas about that specification. Each state-changing method states
its whole new state with `old`: the `isInitialized` flag, the device log, the print buffer and
the call counters. The trace functions it is tied to (`InitEvents`, `PrintEvents`,
`LazyPrintEvents`, `Attempts`) have their own lemmas for call counts, order and outcomes.

Where the code says something other than its declared types, the model follows the code:

- `getPrinterStatus` of `utils/SmartPOSPrint.ts` is declared to return a number. On success,
  though, it returns whatever the native call resolved with, which is a status map. So
  `SmartPos.GetPrinterStatus` returns a `StatusResult`: either `Number(-1)` or
  `Object(status)`.
- The native `initializePrinter` is declared as a `Promise<boolean>` but never resolves with
  false: a failure is an `E_INIT_FAILED` rejection (`CS30Printer.InitOutcomeCases`). The
  client's `false` from `initialize` therefore comes only from a caught rejection or from an
  unavailable module.
- `formatLine` of `utils/SmartPOSPrint.ts` is modelled and specified, although nothing in the
  application calls it.

## Model

Paths are relative to the repository root.

| member | source | states |
|---|---|---|
| Text.Repeat | services/PrinterService.ts:140-141 | `c.repeat(n)` has length n and every character is c |
| Text.CenterPadding | services/PrinterService.ts:217 | `max(0, floor((width - len) / 2))`: zero when the text fills the width, otherwise the text plus twice the padding fits the width with at most one free column |
| Text.SplitPiecesFree | services/PrinterService.ts:171-172 | `split` cuts at every occurrence of the separator: no piece still contains it |
| Text.SplitFirstIsPrefix | services/PrinterService.ts:171-172 | the first piece of a split is a prefix of the field |
| Text.SplitJoin | services/PrinterService.ts:171-172 | joining the pieces of `split(sep)` with sep gives the original field back |
| Text.SplitManyIffContains | services/PrinterService.ts:171-174 | the split has more than one piece exactly when the field contains the separator |
| Text.SplitFirstPiece | services/PrinterService.ts:171-174 | when the separator occurs, the first piece is a proper prefix followed by the separator |
| Text.RenderAppend | services/PrinterService.ts:138-210 | the text of two line lists one after the other is the two texts concatenated |
| Text.RenderShowsLine | services/PrinterService.ts:138-210 | every line of a receipt appears in the printed text, in order, right where the lines before it end, followed by a newline |
| Text.Put | services/PrinterService.ts:148 | one `content += piece` step, where the piece is a line and its newline, adds exactly the next line of the section being printed (SmartPOSPrint.ts uses the same step) |
| Numbers.NatText | android/app/src/main/java/com/rabinnyaundi/posprintdemo/CS30PrinterModule.kt:58 | the decimal text of a natural number is non-empty and all digits |
| Numbers.IntTextRoundTrip | android/app/src/main/java/com/rabinnyaundi/posprintdemo/CS30PrinterModule.kt:58 | the text that `"$status"` puts in a rejection message reads back as the same integer, negative ones included |
| Numbers.NatTextRoundTrip | android/app/src/main/java/com/rabinnyaundi/posprintdemo/CS30PrinterModule.kt:152 | the decimal digits of n read back as n |
| Numbers.LocaleTextRoundTrip | services/PrinterService.ts:187 | the fine's en-US `toLocaleString` text, commas skipped, reads back as the fine |
| Numbers.GroupedOnlyAddsCommas | services/PrinterService.ts:187 | en-US grouping only inserts commas: without them it is the plain decimal text |
| Numbers.GroupedStartsWithDigit | services/PrinterService.ts:187 | a grouped number starts with a digit, never with a comma |
| Numbers.NatTextSplitsAtThousands | services/PrinterService.ts:187 | the digits of n >= 1000 are those of n / 1000 followed by three digits for n % 1000 |
| Offenses.OffenseLines | services/PrinterService.ts:171-184 | the offense block is the single name and `Code:` line when the name has no ", ", and otherwise the lines of the `forEach` over every split name |
| Offenses.MultiOffenseLayout | services/PrinterService.ts:171-180 | on the multi-offense path: more than one name, whose join is the original field and none of which still contains ", "; each name on its own line, in order; its `"  Code: "` line right after it exactly when that code exists and is non-empty; no other line (SmartPOSPrint.ts:152-161 is the same) |
| Offenses.SingleOffenseIff | services/PrinterService.ts:181-184 | exactly the pair `[name, "Code: " + code]` is printed if and only if the name has no ", " (SmartPOSPrint.ts:162-165 is the same) |
| Offenses.EntryAt | services/PrinterService.ts:175-180 | entry i of the loop puts its name at `EntryStart(codes, i)`, and its code line right after it when the code is present |
| Offenses.AddOffenses | services/PrinterService.ts:171-184 | the split and the `forEach` loop append exactly the offense block's lines to `content` |
| Offenses.ListingLayout | services/PrinterService.ts:167-187 | heading, rule, the offense block, rule, total line and blank line, with the block between the two rules |
| Offenses.AddListing | services/PrinterService.ts:167-187 | the offense section's `+=` steps append exactly that section (SmartPOSPrint.ts:148-169 is the same with its own heading and total) |
| Vendor.CountAppend | android/app/src/main/java/com/rabinnyaundi/posprintdemo/CS30PrinterModule.kt:43-50 | the calls of each kind in two traces one after the other add up |
| CS30Printer.FooterRuleIsRepeat | android/app/src/main/java/com/rabinnyaundi/posprintdemo/CS30PrinterModule.kt:141 | the appended rule is `"-".repeat(32)` |
| CS30Printer.StatusText | android/app/src/main/java/com/rabinnyaundi/posprintdemo/CS30PrinterModule.kt:174-182 | "Ready" exactly for `SDK_OK`; every other code, paper-out included, gives `Unknown Status (<code>)`, whose number reads back as the code |
| CS30Printer.StatusOf | android/app/src/main/java/com/rabinnyaundi/posprintdemo/CS30PrinterModule.kt:86-91 | the status map holds the code and its text, `isReady` exactly for `SDK_OK` and `isPaperOut` exactly for the paper-out sentinel |
| CS30Printer.StatusFlagsAgree | android/app/src/main/java/com/rabinnyaundi/posprintdemo/CS30PrinterModule.kt:86-91 | with distinct sentinels a status is never both ready and paper-out, and a paper-out status never reads "Ready" |
| CS30Printer.InitEventsCount | android/app/src/main/java/com/rabinnyaundi/posprintdemo/CS30PrinterModule.kt:43-52 | `initializePrinter` makes one `sdkInit` when the first is OK, otherwise two, with one power-on and one wait |
| CS30Printer.InitEventsShape | android/app/src/main/java/com/rabinnyaundi/posprintdemo/CS30PrinterModule.kt:43-52 | at most two `sdkInit` calls; a power-on exactly when the first is not OK, and only strictly between the two calls; no status read, append or print start |
| CS30Printer.InitOutcomeCases | android/app/src/main/java/com/rabinnyaundi/posprintdemo/CS30PrinterModule.kt:54-61 | resolves exactly when the last `sdkInit` was OK, and then with true; otherwise rejects with `E_INIT_FAILED`, naming that last status |
| CS30Printer.PrintEventsCount | android/app/src/main/java/com/rabinnyaundi/posprintdemo/CS30PrinterModule.kt:109-155 | `printText` reads the status once when there is a printer, and appends four times and starts once only when it proceeds |
| CS30Printer.AppendsCount | android/app/src/main/java/com/rabinnyaundi/posprintdemo/CS30PrinterModule.kt:137-145 | four appends and a start add four append calls and one start to a trace |
| CS30Printer.PrintEventsShape | android/app/src/main/java/com/rabinnyaundi/posprintdemo/CS30PrinterModule.kt:109-155 | no printer: no call at all; paper-out: only the status read; otherwise the status read, the text, `"\n\n"`, the rule and `"\n\n\n"` in that order, then one `setPrintStart` |
| CS30Printer.PrintOutcomeCases | android/app/src/main/java/com/rabinnyaundi/posprintdemo/CS30PrinterModule.kt:109-155 | a null printer rejects with `E_PRINTER_NOT_AVAILABLE` and paper-out with `E_PAPER_OUT`; otherwise it resolves, with true, exactly when `setPrintStart` returned `SDK_OK`, and rejects with `E_PRINT_FAILED` naming the status otherwise |
| CS30Printer.CS30PrinterModule.constructor | android/app/src/main/java/com/rabinnyaundi/posprintdemo/CS30PrinterModule.kt:40-41 | the module works on the one device it is given |
| CS30Printer.CS30PrinterModule.InitializePrinter | android/app/src/main/java/com/rabinnyaundi/posprintdemo/CS30PrinterModule.kt:36-61 | the device log grows by exactly the `initializePrinter` trace, the `sdkInit` counter by one or two and the power-on counter by one exactly when the first `sdkInit` is not OK, and the call settles as `InitOutcome` |
| CS30Printer.CS30PrinterModule.GetPrinterStatus | android/app/src/main/java/com/rabinnyaundi/posprintdemo/CS30PrinterModule.kt:70-93 | no printer: rejects with `E_PRINTER_NOT_AVAILABLE` and reads nothing; otherwise one status read, resolved as its status map |
| CS30Printer.CS30PrinterModule.PrintText | android/app/src/main/java/com/rabinnyaundi/posprintdemo/CS30PrinterModule.kt:102-155 | log, buffer, status reads and starts grow by exactly `printText`'s trace and appends; the buffer is unchanged on the null-printer and paper-out paths; it settles as `PrintOutcome` |
| CS30Printer.CS30PrinterModule.AppendWithFooter | android/app/src/main/java/com/rabinnyaundi/posprintdemo/CS30PrinterModule.kt:137-142 | the buffer grows by exactly `[text, "\n\n", "-"*32, "\n\n\n"]`, in order |
| CS30Printer.CS30PrinterModule.PrintReceipt | android/app/src/main/java/com/rabinnyaundi/posprintdemo/CS30PrinterModule.kt:164-167 | `printReceipt(s)` has exactly the effect and outcome of `printText(s)` |
| MainActivity.Tried | android/app/src/main/java/com/rabinnyaundi/posprintdemo/MainActivity.kt:36-83 | the number of attempts made from attempt a on lies between a and five |
| MainActivity.InitSdk | android/app/src/main/java/com/rabinnyaundi/posprintdemo/MainActivity.kt:36-87 | the retry loop logs exactly the calls of the attempts up to the first OK status, or of all five; one power-on exactly when a second attempt is made; the final status is the last attempt's; the failure is reported exactly when it is not OK |
| MainActivity.Retry | android/app/src/main/java/com/rabinnyaundi/posprintdemo/MainActivity.kt:40-83 | a later attempt is its wait (power-on and 3000 ms before the second, 2000 ms otherwise), then one `sdkInit`; the power-on counter grows only before the second |
| MainActivity.AttemptsCount | android/app/src/main/java/com/rabinnyaundi/posprintdemo/MainActivity.kt:36-83 | n attempts make n `sdkInit` calls, one power-on from the second attempt on, n - 1 waits and no other call |
| MainActivity.AttemptsCountOf | android/app/src/main/java/com/rabinnyaundi/posprintdemo/MainActivity.kt:36-83 | the count of each kind of call in n attempts, by induction on n |
| MainActivity.AttemptsLength | android/app/src/main/java/com/rabinnyaundi/posprintdemo/MainActivity.kt:36-83 | n attempts log n calls for n <= 1, otherwise 2n |
| MainActivity.AttemptsPrefix | android/app/src/main/java/com/rabinnyaundi/posprintdemo/MainActivity.kt:36-83 | the trace of fewer attempts is a prefix of the trace of more |
| MainActivity.AttemptAt | android/app/src/main/java/com/rabinnyaundi/posprintdemo/MainActivity.kt:44-81 | attempt k's `sdkInit` sits at `CallIndex(k)`, and its wait just before it |
| MainActivity.RetryLayout | android/app/src/main/java/com/rabinnyaundi/posprintdemo/MainActivity.kt:40-83 | 3000 ms before attempt two and 2000 ms before attempts three to five; the only power-on is second in the trace, between the first two attempts, and there is none when one attempt suffices |
| MainActivity.TriedStopsAtFirstOk | android/app/src/main/java/com/rabinnyaundi/posprintdemo/MainActivity.kt:36-83 | every attempt before the last one made failed, and the last succeeded unless it was the fifth |
| MainActivity.FirstAttemptOk | android/app/src/main/java/com/rabinnyaundi/posprintdemo/MainActivity.kt:36-40 | a first attempt that succeeds is one `sdkInit` with no power-on and no wait |
| MainActivity.StartUpSummary | android/app/src/main/java/com/rabinnyaundi/posprintdemo/MainActivity.kt:36-87 | one to five `sdkInit` calls, the last being the final status; nothing after the first success; a final failure only after all five |
| PrinterClient.RulesAreRepeats | services/PrinterService.ts:140-141 | the separator is `'='.repeat(32)` and the dash `'-'.repeat(32)` |
| PrinterClient.CenterText | services/PrinterService.ts:216-219 | `centerText` ends with the text after nothing but spaces; it is the text itself when the text is at least the width; otherwise it fits the width and the spaces are half the free columns, rounded down |
| PrinterClient.SeparatorNotPadded | services/PrinterService.ts:145 | the 32-character separator is never padded |
| PrinterClient.OffenderLayout | services/PrinterService.ts:155-164 | a `License:` line if and only if the number is non-empty and not "N/A"; a `Vehicle:` line if and only if a non-empty registration is present; both in that place |
| PrinterClient.OffenderLineAt | services/PrinterService.ts:155-164 | no line of the offender section except the licence line equals it, and none except the vehicle line starts with `Vehicle: ` |
| PrinterClient.PaymentLayout | services/PrinterService.ts:190-196 | a `Transaction:` line if and only if the id is non-empty; `Status: PAID` always, before the blank line |
| PrinterClient.ReceiptHeadings | services/PrinterService.ts:143-208 | the headings in their fixed order: receipt details, offender, offense, payment, officer, each right after the section before it |
| PrinterClient.ReceiptRules | services/PrinterService.ts:144-208 | the unpadded separator is the header's second line and the footer's first and last |
| PrinterClient.AlwaysPrinted | services/PrinterService.ts:187-196 | every receipt has `TOTAL FINE: KES` with the en-US grouped fine, and `Status: PAID` |
| PrinterClient.FormatReceiptContent | services/PrinterService.ts:135-211 | the text built by `+=` is exactly the receipt's lines, each followed by a newline |
| PrinterClient.AddHeader | services/PrinterService.ts:143-145 | appends the centred title, the centred separator and a blank line |
| PrinterClient.AddDetails | services/PrinterService.ts:147-152 | appends the receipt-details section |
| PrinterClient.AddOffender | services/PrinterService.ts:154-164 | appends the offender section, with its two conditional lines |
| PrinterClient.AddPayment | services/PrinterService.ts:189-196 | appends the payment section, with its conditional transaction line |
| PrinterClient.AddOfficer | services/PrinterService.ts:198-202 | appends the officer section |
| PrinterClient.AddFooter | services/PrinterService.ts:204-208 | appends the four centred footer lines |
| PrinterClient.Awaited | services/PrinterService.ts:42-56 | the awaited `initializePrinter` gives true exactly when it resolved with true, and false (caught) when it rejected |
| PrinterClient.LazyAfterInit | services/PrinterService.ts:95-112 | once the initialisation step passes, `printText` is that step's calls followed by the native `printText`'s calls, appends and outcome |
| PrinterClient.LazyAfterFailedInit | services/PrinterService.ts:95-100 | when the lazy initialisation fails, only its calls are made and the call rejects with "Failed to initialize printer" |
| PrinterClient.InitializedPrintsAtOnce | services/PrinterService.ts:95-104 | once initialised, `printText` makes no `sdkInit` call; its calls and outcome are the native `printText`'s |
| PrinterClient.UninitializedInitsFirst | services/PrinterService.ts:95-104 | when not initialised, `initializePrinter` runs once and first (one or two `sdkInit` calls), and the status is read only if it succeeded and a printer is fitted |
| PrinterClient.FailedInitPrintsNothing | services/PrinterService.ts:97-100 | a failed lazy initialisation throws "Failed to initialize printer"; the native `printText` is never reached, so no status read, append or print start happens |
| PrinterClient.StartedIff | services/PrinterService.ts:88-112 | the print is started at most once, and exactly when initialisation is done or not needed, a printer is fitted and the paper is not out; the buffer grows exactly then |
| PrinterClient.PrinterService.constructor | services/PrinterService.ts:13-15 | a new client is not initialised |
| PrinterClient.PrinterService.Initialize | services/PrinterService.ts:34-57 | unavailable: false, no device call, flag unchanged; otherwise the flag becomes the awaited result of `initializePrinter`, false on rejection, with its calls, `sdkInit` count and power-on count |
| PrinterClient.PrinterService.GetStatus | services/PrinterService.ts:62-75 | null without the module, or when the native call rejects; otherwise the status map of one read |
| PrinterClient.PrinterService.IsReady | services/PrinterService.ts:80-83 | true exactly when a status was read and it is `SDK_OK`, so false when the status is null |
| PrinterClient.PrinterService.EnsureInitialized | services/PrinterService.ts:95-101 | `initialize()` runs exactly when the flag is not set, and the step passes when it was set or the initialisation succeeded |
| PrinterClient.PrinterService.PrintText | services/PrinterService.ts:88-117 | unavailable: false, nothing changes; otherwise the flag, log, `sdkInit` and power-on counters, buffer, status reads and starts change exactly as the lazy initialisation followed by the native `printText` says, and the call settles accordingly |
| PrinterClient.PrinterService.PrintReceipt | services/PrinterService.ts:122-130 | prints the formatted receipt text exactly as `printText` would |
| SmartPos.CenterText | utils/SmartPOSPrint.ts:191-195 | the printer client's centring in 32 columns, then a newline; the text and its newline when it is 32 wide or more; at most 33 characters otherwise |
| SmartPos.FormatLine | utils/SmartPOSPrint.ts:200-210 | when label and value fit: exactly 32 columns and a newline, the label flush left, the value flush right and spaces between; otherwise the label and the value on two lines |
| SmartPos.OffenderLayout | utils/SmartPOSPrint.ts:128-135 | a `License:` line if and only if the number is non-empty and not "N/A"; no line of the section ever starts with `Vehicle: ` |
| SmartPos.PaymentLayout | utils/SmartPOSPrint.ts:137-145 | a `Transaction:` line if and only if payment details are given with a non-empty id; `Status: PAID` always follows |
| SmartPos.ReceiptHeadings | utils/SmartPOSPrint.ts:117-176 | the headings in this front end's order: offender, payment, then selected offenses, then officer |
| SmartPos.AlwaysPrinted | utils/SmartPOSPrint.ts:144-168 | every receipt has `TOTAL PAID: KES` with the grouped fine, and `Status: PAID` |
| SmartPos.EndsWithFooter | utils/SmartPOSPrint.ts:178-185 | the printed text always ends with the four centred footer lines followed by `"\n\n\n"` |
| SmartPos.FooterText | utils/SmartPOSPrint.ts:179-183 | the footer lines, rendered, are the four `centerText` results and `"\n\n\n"` |
| SmartPos.FormatReceiptContent | utils/SmartPOSPrint.ts:112-186 | the text built by `+=` is exactly this front end's receipt lines, each followed by a newline |
| SmartPos.AddHeader | utils/SmartPOSPrint.ts:117-120 | the two `centerText` pieces and `"\n"` are the printer client's header lines |
| SmartPos.AddDetails | utils/SmartPOSPrint.ts:122-126 | appends the three details lines and a blank line, with no heading |
| SmartPos.AddOffender | utils/SmartPOSPrint.ts:128-135 | appends the offender section, with its conditional licence line |
| SmartPos.AddPayment | utils/SmartPOSPrint.ts:137-145 | appends the payment section, with its conditional transaction line |
| SmartPos.AddOfficer | utils/SmartPOSPrint.ts:171-176 | appends the officer section, the same lines as the printer client's |
| SmartPos.AddFooter | utils/SmartPOSPrint.ts:178-183 | appends the four centred footer lines and three blank lines |
| SmartPos.BlankLines | utils/SmartPOSPrint.ts:183 | `"\n\n\n"` is three empty lines |
| SmartPos.InitializeSdk | utils/SmartPOSPrint.ts:32-46 | false without the module; otherwise the awaited `initializePrinter`, false on rejection |
| SmartPos.InitializeSdkIff | utils/SmartPOSPrint.ts:39-41 | `initializeSDK` reports success exactly when one of the one or two `sdkInit` calls answered `SDK_OK` |
| SmartPos.GetPrinterStatus | utils/SmartPOSPrint.ts:51-65 | -1 without the module, or when the native call rejects; otherwise the status map of one read |
| SmartPos.PrintText | utils/SmartPOSPrint.ts:93-107 | false without the module; otherwise exactly the native `printText`, its rejection passed on |
| SmartPos.PrintReceipt | utils/SmartPOSPrint.ts:70-88 | false without the module, before any formatting; otherwise the native `printText` of the formatted receipt |

## Left out

- Exceptions thrown by the SDK, and the `catch` blocks they reach, are not modelled. These are the
  `E_UNKNOWN_ERROR` and `E_STATUS_FAILED` rejections, the client's `catch` returning false or null,
  and MainActivity's `catch`. Device calls never throw in the model. Rejections the code raises
  itself are modelled.
- `Log` and `console` output, the `PrnStrFormat` text settings (size, alignment, style, font) and
  the commented-out `setPrintInit` are left out. They change nothing the rest of the system
  observes.
- `Thread.sleep` is a recorded `Sleep(millis)` event, not elapsed time. Promise and async
  scheduling is sequential: each awaited call completes before the next statement.
- `Platform.OS === 'android'` is a boolean, and `NativeModules.CS30Printer` is a nullable module
  reference. `DriverManager.getInstance()` and the `getInstance` singleton are one object each,
  handed in.
- `getConstants` of both the native module and the client is left out. The client reads
  `STATUS_BUSY`/`STATUS_OVERHEAT`, which the native side does not export.
- Numbers.LocaleText: `toLocaleString` is modelled only as en-US comma grouping of an integer,
  the minus sign in front of negative ones. Fractional fines and other locales are not modelled.
- Strings are sequences of characters. `text.length` counts UTF-16 code units in JavaScript, so
  `centerText` padding for text outside the Basic Multilingual Plane is not modelled.
- A `'\n\n'` that closes a section is modelled as that section's last line being empty. The text
  is the same.
- MainActivity's five guarded blocks are one bounded loop with the same calls in the same order.
  The splash screen, React delegate and back-button code are left out.
- `hooks/Printer.ts`, the React screens under `app/`, `native/CS30Printer.ts` and
  `CS30PrinterPackage.kt` are not part of this model (UI state and module registration).
