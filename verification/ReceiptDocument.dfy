/** The normalised print document that the bridge renders, hashes and journals. */
module ReceiptDocument {
  import opened Wrappers

  datatype Kind = Preparation | Bill | Courier | Test

  datatype Line = Line(
    name: string, quantity: string, unitPrice: Option<string>, lineTotal: Option<string>,
    modifiers: Option<seq<string>>, note: Option<string>, complimentary: bool, adjustmentLabel: Option<string>)

  datatype Totals = Totals(
    subtotal: Option<string>, discount: Option<string>, tax: Option<string>, serviceCharge: Option<string>,
    coverCharge: Option<string>, total: string, paid: Option<string>, remaining: Option<string>)

  datatype Document = Document(
    kind: Option<Kind>, title: string, businessName: Option<string>, branchName: string, stationName: string,
    orderNumber: string, receiptNumber: Option<real>, businessDate: Option<string>, tableName: Option<string>,
    waiterName: Option<string>, staffLabel: Option<string>, sourceLabel: Option<string>, orderLabel: Option<string>,
    customerName: Option<string>, customerPhone: Option<string>, deliveryAddress: Option<string>,
    paymentLabel: Option<string>, submittedAt: string, currency: Option<string>, lines: seq<Line>,
    totals: Option<Totals>, footer: Option<seq<string>>)
}
