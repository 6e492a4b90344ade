/** The records exchanged between the application, the printer client and the native
    binding, as declared in types/CS30Printer.ts, and the two ways a call can settle. */
module PrinterTypes {

  datatype Option<T> = None | Some(value: T)

  /** What a rejected promise or a thrown error carries: the native binding rejects with a
      code and a message, script code throws a plain `Error` with a message only. */
  datatype Error = NativeError(code: string, message: string) | ScriptError(message: string)

  /** A settled promise. */
  datatype Outcome<T> = Resolved(value: T) | Rejected(error: Error)

  /** One status query, derived from a raw device status code. */
  datatype PrinterStatus = PrinterStatus(statusCode: int, statusText: string, isReady: bool, isPaperOut: bool)

  datatype ReceiptData = ReceiptData(receiptNumber: string, date: string, time: string, officer: string, badgeNumber: string)

  datatype OffenderDetails = OffenderDetails(
    name: string,
    idNumber: Option<string>,
    licenseNumber: string,
    phoneNumber: Option<string>,
    vehicleRegistration: Option<string>,
    location: Option<string>)

  /** `name` and `code` may each hold several offenses joined with ", ". */
  datatype SelectedOffense = SelectedOffense(name: string, code: string, fine: int)

  /** `method` of the source record is `methodName` here (`method` is a Dafny keyword). */
  datatype PaymentDetails = PaymentDetails(transactionId: string, methodName: string)

  datatype PrintData = PrintData(
    receiptData: ReceiptData,
    selectedOffense: SelectedOffense,
    paymentMethod: string,
    paymentDetails: PaymentDetails,
    offenderDetails: OffenderDetails)
}
