/**
 The payment call as it crosses three services: the REST enumeration, the order model,
 the protobuf enumeration, and the payment service's own model with its validation.
 */
module Payments {
  import opened Prelude
  import opened Ids

  /** The order service's payment method. */
  datatype PaymentMethod = Unknown | Card | Sbp | CreditCard | InvestorMoney

  /** The payment service's payment method. */
  datatype Method = MethodUnknown | MethodCard | MethodSbp | MethodCreditCard | MethodInvestorMoney

  datatype PaymentError = MethodIsUnknown | MethodUnsupported | RequestIsNil | OrderRequired | UserRequired

  /** `PayOrderRequest` on the wire; a protobuf enumeration is an open integer. */
  datatype PayRequest = PayRequest(order: string, user: string, pm: int)

  datatype PayParams = PayParams(order: string, user: string, pm: Method)

  function OAPIToPaymentMethod(pm: string): PaymentMethod {
    if pm == "PAYMENT_METHOD_UNKNOWN" then Unknown
    else if pm == "PAYMENT_METHOD_CARD" then Card
    else if pm == "PAYMENT_METHOD_SBP" then Sbp
    else if pm == "PAYMENT_METHOD_CREDIT_CARD" then CreditCard
    else if pm == "PAYMENT_METHOD_INVESTOR_MONEY" then InvestorMoney
    else Unknown
  }

  function PaymentMethodToPB(pm: PaymentMethod): int {
    match pm
    case Unknown => 0
    case Card => 1
    case Sbp => 2
    case CreditCard => 3
    case InvestorMoney => 4
  }

  function MethodFromPB(pm: int): Result<Method, PaymentError> {
    if pm == 0 then Failure(MethodIsUnknown)
    else if pm == 1 then Success(MethodCard)
    else if pm == 2 then Success(MethodSbp)
    else if pm == 3 then Success(MethodCreditCard)
    else if pm == 4 then Success(MethodInvestorMoney)
    else Failure(MethodUnsupported)
  }

  function PayOrderParamsFromPB(req: Option<PayRequest>): Result<PayParams, PaymentError> {
    match req
    case None => Failure(RequestIsNil)
    case Some(r) =>
      match MethodFromPB(r.pm)
      case Failure(e) => Failure(e)
      case Success(m) => Success(PayParams(r.order, r.user, m))
  }

  function Validate(p: PayParams): Option<PaymentError> {
    if p.order == "" then Some(OrderRequired)
    else if p.user == "" then Some(UserRequired)
    else if p.pm == MethodUnknown then Some(MethodIsUnknown)
    else None
  }

  /** The payment service's answer: the parameters it charges, or why it refuses. */
  function Serve(req: Option<PayRequest>): Result<PayParams, PaymentError> {
    match PayOrderParamsFromPB(req)
    case Failure(e) => Failure(e)
    case Success(p) =>
      match Validate(p)
      case Some(e) => Failure(e)
      case None => Success(p)
  }

  /** What the order service sends for an order, its owner and the requested method. */
  function PayOrderParamsToPB(order: Uuid, user: Uuid, pm: PaymentMethod): PayRequest {
    PayRequest(Text(order), Text(user), PaymentMethodToPB(pm))
  }

  /** The two services' enumerations name the same method. */
  predicate SameMethod(pm: PaymentMethod, m: Method) {
    || (pm.Card? && m.MethodCard?)
    || (pm.Sbp? && m.MethodSbp?)
    || (pm.CreditCard? && m.MethodCreditCard?)
    || (pm.InvestorMoney? && m.MethodInvestorMoney?)
  }

  /** A raw request is charged exactly when both ids are present and the method is one of the four known ones. */
  lemma ServeAcceptsExactly(req: PayRequest)
    ensures Serve(Some(req)).Success? <==> req.order != "" && req.user != "" && 1 <= req.pm <= 4
  {
  }

  /** Every answer of the payment service, with the reason of each refusal. */
  lemma ServeAnswers(req: PayRequest)
    ensures Serve(None) == Failure(RequestIsNil)
    ensures Serve(Some(req))
         == if req.pm == 0 then Failure(MethodIsUnknown)
            else if req.pm < 0 || req.pm > 4 then Failure(MethodUnsupported)
            else if |req.order| == 0 then Failure(OrderRequired)
            else if |req.user| == 0 then Failure(UserRequired)
            else Success(PayParams(req.order, req.user,
                                   [MethodCard, MethodSbp, MethodCreditCard, MethodInvestorMoney][req.pm - 1]))
  {
  }

  /**
   A request of the order service is refused exactly when its method is unknown; otherwise
   the charge names that order, that user and that method.
   */
  lemma ServeKeepsMeaning(order: Uuid, user: Uuid, pm: PaymentMethod)
    ensures var answer := Serve(Some(PayOrderParamsToPB(order, user, pm)));
            && (answer.Success? <==> pm != Unknown)
            && (answer.Success? ==>
                  && answer.value.order == Text(order)
                  && answer.value.user == Text(user)
                  && SameMethod(pm, answer.value.pm))
  {
    assert Text(order) != "" && Text(user) != "" by {
      assert |Text(order)| == 36 && |Text(user)| == 36;
    }
  }

  /** The string a payment method is stored and answered as. */
  function MethodText(pm: PaymentMethod): string {
    match pm
    case Unknown => "PAYMENT_METHOD_UNKNOWN"
    case Card => "PAYMENT_METHOD_CARD"
    case Sbp => "PAYMENT_METHOD_SBP"
    case CreditCard => "PAYMENT_METHOD_CREDIT_CARD"
    case InvestorMoney => "PAYMENT_METHOD_INVESTOR_MONEY"
  }

  /** Parsing undoes printing, and every string that is no known name is read as unknown. */
  lemma MethodReadsBack(text: string, pm: PaymentMethod)
    ensures OAPIToPaymentMethod(MethodText(pm)) == pm
    ensures pm != Unknown ==> (OAPIToPaymentMethod(text) == pm <==> text == MethodText(pm))
  {
    NamesDiffer();
  }

  lemma NamesDiffer()
    ensures |MethodText(Unknown)| == 22 && |MethodText(Card)| == 19 && |MethodText(Sbp)| == 18
    ensures |MethodText(CreditCard)| == 26 && |MethodText(InvestorMoney)| == 29
  {
  }

  /**
   From the REST request to the ledger: the charge is made exactly when the requested name is
   one of the four known ones, and the charged method is the one of that name.
   */
  lemma RequestedMethodIsCharged(order: Uuid, user: Uuid, text: string)
    ensures var pm := OAPIToPaymentMethod(text);
            var answer := Serve(Some(PayOrderParamsToPB(order, user, pm)));
            && (answer.Success? <==> exists known :: known != Unknown && text == MethodText(known))
            && (answer.Success? ==> text == MethodText(pm) && SameMethod(pm, answer.value.pm))
  {
    var pm := OAPIToPaymentMethod(text);
    ServeKeepsMeaning(order, user, pm);
    MethodReadsBack(text, pm);
    if known :| known != Unknown && text == MethodText(known) {
      MethodReadsBack(text, known);
    }
  }

  /** The four names that can be charged, and what each of them charges. */
  lemma NamedMethodIsCharged(order: Uuid, user: Uuid, text: string)
    ensures var answer := Serve(Some(PayOrderParamsToPB(order, user, OAPIToPaymentMethod(text))));
            answer == if text == "PAYMENT_METHOD_CARD" then Success(PayParams(Text(order), Text(user), MethodCard))
                      else if text == "PAYMENT_METHOD_SBP" then Success(PayParams(Text(order), Text(user), MethodSbp))
                      else if text == "PAYMENT_METHOD_CREDIT_CARD" then
                        Success(PayParams(Text(order), Text(user), MethodCreditCard))
                      else if text == "PAYMENT_METHOD_INVESTOR_MONEY" then
                        Success(PayParams(Text(order), Text(user), MethodInvestorMoney))
                      else Failure(MethodIsUnknown)
  {
    ServeKeepsMeaning(order, user, OAPIToPaymentMethod(text));
  }
}
