/**
 * What the two JavaScript backends share outside the ledger: the /api/buy
 * route (truthiness check, then an invoice built from the request) and the
 * replies of the successful_payment handler. The /api/buy route and the
 * handler's replies are the same in both backends (server.js:91-114 and
 * 142-146, Node.js:100-123 and 150-154); their stores differ.
 */
module Invoices {
  import opened Wrappers
  import Decimal

  /** A user id as the backends key their stores: a string. */
  type UserId = string

  /** The JSON body of POST /api/buy; a field the client left out is None. */
  datatype BuyRequest = BuyRequest(userId: Option<string>, category: Option<string>, amount: Option<int>)

  /** JavaScript truthiness of a string field: present and non-empty. */
  predicate TruthyString(f: Option<string>) { f.Some? && f.value != "" }

  /** JavaScript truthiness of a numeric field: present and non-zero. */
  predicate TruthyNumber(f: Option<int>) { f.Some? && f.value != 0 }

  /** The invoice payload, sent as JSON and parsed back by successful_payment. */
  datatype Payload = Payload(userId: UserId, category: string, amount: int)

  datatype Invoice = Invoice(
    chatId: UserId,
    title: string,
    description: string,
    payload: Payload,
    currency: string,
    priceLabel: string,
    priceAmount: int,
    startParameter: string)

  /** 400, invoice sent (200), or 500 when the invoice could not be sent. */
  datatype BuyResponse = BadRequest | InvoiceSent(invoice: Invoice) | ServerError

  function MakeInvoice(userId: UserId, category: string, amount: int): Invoice {
    Invoice(
      userId,
      "شراء لاشيء " + category,
      "شراء لاشيء بحجم " + category + " بقيمة " + Decimal.Show(amount) + " ⭐",
      Payload(userId, category, amount),
      "XTR",
      "لاشيء " + category,
      amount * 100,
      "buy")
  }

  /**
   * POST /api/buy. `sendInvoiceFails` stands for the Telegram call throwing,
   * which the route turns into a 500.
   */
  function Buy(req: BuyRequest, sendInvoiceFails: bool): (r: BuyResponse)
    ensures r.BadRequest? <==>
      !(TruthyString(req.userId) && TruthyString(req.category) && TruthyNumber(req.amount))
    ensures r.ServerError? ==> sendInvoiceFails
    ensures r.InvoiceSent? ==>
      && !sendInvoiceFails
      && r.invoice.chatId == req.userId.value
      && r.invoice.payload == Payload(req.userId.value, req.category.value, req.amount.value)
      && r.invoice.priceAmount == 100 * req.amount.value
      && r.invoice.currency == "XTR"
  {
    if !TruthyString(req.userId) || !TruthyString(req.category) || !TruthyNumber(req.amount) then
      BadRequest
    else if sendInvoiceFails then
      ServerError
    else
      InvoiceSent(MakeInvoice(req.userId.value, req.category.value, req.amount.value))
  }

  /** A zero amount is rejected and a negative one is not: the check is truthiness, not positivity. */
  lemma AmountCheckIsTruthiness(userId: string, category: string, amount: int)
    requires userId != "" && category != ""
    ensures Buy(BuyRequest(Some(userId), Some(category), Some(amount)), false).BadRequest? <==> amount == 0
    ensures amount < 0 ==>
      Buy(BuyRequest(Some(userId), Some(category), Some(amount)), false).invoice.priceAmount < 0
  {
  }

  /** The payment confirmation as the handler receives it; None when its payload is not valid JSON. */
  datatype PaymentMessage = PaymentMessage(fromId: UserId, payload: Option<Payload>)

  datatype NoticeKind = Thanks | PaymentFailed
  datatype Notice = Notice(chatId: UserId, kind: NoticeKind)

  /**
   * The messages successful_payment sends: thanks to the payload's user; if
   * the payload does not parse, or the thank-you itself throws, the catch
   * block sends a failure notice to the sender.
   */
  function PaymentNotices(msg: PaymentMessage, thanksFails: bool): (sent: seq<Notice>)
    ensures msg.payload.None? ==> sent == [Notice(msg.fromId, PaymentFailed)]
    ensures msg.payload.Some? ==> |sent| > 0 && sent[0] == Notice(msg.payload.value.userId, Thanks)
    ensures Notice(msg.fromId, PaymentFailed) in sent <==> msg.payload.None? || thanksFails
    ensures msg.payload.Some? ==> |sent| == if thanksFails then 2 else 1
  {
    match msg.payload
    case None => [Notice(msg.fromId, PaymentFailed)]
    case Some(p) =>
      if thanksFails then [Notice(p.userId, Thanks), Notice(msg.fromId, PaymentFailed)]
      else [Notice(p.userId, Thanks)]
  }
}
