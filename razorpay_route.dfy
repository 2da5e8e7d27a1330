/**
 * The payment-callback endpoint (`/api/razorpay`): a method guard, a
 * signature check delegated to the gateway SDK, and a try/catch that maps
 * every exception to a server error. The SDK's check is an uninterpreted
 * function of the three signed fields; nothing is stored.
 */
module RazorpayRoute {
  import opened Options

  /** What the supporter's page sends after checkout. */
  datatype PayerInfo = PayerInfo(name: Option<string>, message: Option<string>, amount: Option<string>)

  datatype RequestBody = RequestBody(
    razorpayPaymentId: Option<string>,
    razorpayOrderId: Option<string>,
    razorpaySignature: Option<string>,
    username: Option<string>,
    payerInfo: Option<PayerInfo>)

  /** `req.method` and `req.body` (absent when no body object was parsed). */
  datatype Request = Request(httpMethod: string, body: Option<RequestBody>)

  /** The argument of `verifyPaymentSignature`. */
  datatype SignedTriple = SignedTriple(orderId: Option<string>, paymentId: Option<string>, signature: Option<string>)

  /** What the SDK's check does: return a verdict, or throw. */
  datatype Verification = Verdict(valid: bool) | Threw

  /** The JSON the handler sends. */
  datatype JsonBody = JsonBody(success: bool, message: Option<string>)

  /** A status with a JSON body, or with none (`res.status(405).end()`). */
  datatype Response = Response(status: int, json: Option<JsonBody>)

  /**
   * The handler's outcome with the calls it made to the verifier: a response
   * it sends, or an exception raised before its `try` block that escapes the
   * handler (the framework then answers, not this code).
   */
  datatype Outcome = Responded(response: Response, verifierCalls: seq<SignedTriple>) | Uncaught

  const InvalidSignature := Response(400, Some(JsonBody(false, Some("Invalid signature"))))
  const ServerError := Response(500, Some(JsonBody(false, Some("Server error"))))
  const Verified := Response(200, Some(JsonBody(true, None)))

  /** Exactly the three signed fields of the body, in the SDK's argument. */
  function SignedFields(body: RequestBody): (t: SignedTriple)
    ensures t.orderId == body.razorpayOrderId
    ensures t.paymentId == body.razorpayPaymentId
    ensures t.signature == body.razorpaySignature
  {
    SignedTriple(body.razorpayOrderId, body.razorpayPaymentId, body.razorpaySignature)
  }

  /** The `try` block: its early returns, or the exception it raises. */
  datatype TryResult = Returned(response: Response) | Raised

  /**
   * The body of the `try`: constructing the SDK client (which may throw),
   * then the signature check; no record is written on success.
   */
  function TryBlock(body: RequestBody, clientConstructs: bool, verify: SignedTriple -> Verification): (r: TryResult)
    ensures r.Returned? ==> r.response == InvalidSignature || r.response == Verified
    ensures r == Returned(Verified) <==> clientConstructs && verify(SignedFields(body)) == Verdict(true)
    ensures r == Returned(InvalidSignature) <==> clientConstructs && verify(SignedFields(body)) == Verdict(false)
  {
    if !clientConstructs then Raised
    else
      match verify(SignedFields(body))
      case Threw => Raised
      case Verdict(isValid) => if !isValid then Returned(InvalidSignature) else Returned(Verified)
  }

  /**
   * `handler(req, res)`. Any method but POST gets 405 with no body and no
   * verifier call. A POST calls the verifier at most once, on the three
   * signed fields only; its verdict gives 200 or 400, and every exception in
   * the `try` block gives 500.
   */
  function Handler(req: Request, clientConstructs: bool, verify: SignedTriple -> Verification): (r: Outcome)
    ensures req.httpMethod != "POST" ==> r == Responded(Response(405, None), [])
    ensures r.Uncaught? <==> req.httpMethod == "POST" && req.body.None?
    ensures r.Responded? ==> r.response.status in {200, 400, 405, 500}
    ensures r.Responded? && r.response.status == 200 <==>
              req.httpMethod == "POST" && req.body.Some? && clientConstructs
              && verify(SignedFields(req.body.value)) == Verdict(true)
    ensures r.Responded? && r.response.status == 400 <==>
              req.httpMethod == "POST" && req.body.Some? && clientConstructs
              && verify(SignedFields(req.body.value)) == Verdict(false)
    ensures r.Responded? && r.response.status == 500 <==>
              req.httpMethod == "POST" && req.body.Some?
              && (!clientConstructs || verify(SignedFields(req.body.value)) == Threw)
    ensures r.Responded? && r.response.status != 405 ==>
              r.response == Verified || r.response == InvalidSignature || r.response == ServerError
    ensures r.Responded? ==>
              r.verifierCalls == if req.httpMethod == "POST" && clientConstructs
                                 then [SignedFields(req.body.value)] else []
  {
    if req.httpMethod != "POST" then Responded(Response(405, None), [])
    else
      match req.body
      case None => Uncaught
      case Some(body) =>
        var calls := if clientConstructs then [SignedFields(body)] else [];
        match TryBlock(body, clientConstructs, verify)
        case Returned(response) => Responded(response, calls)
        case Raised => Responded(ServerError, calls)
  }

  /** The method guard answers before anything else: the verifier's behaviour cannot matter. */
  lemma NonPostIgnoresVerifier(req: Request, c1: bool, v1: SignedTriple -> Verification,
                               c2: bool, v2: SignedTriple -> Verification)
    requires req.httpMethod != "POST"
    ensures Handler(req, c1, v1) == Handler(req, c2, v2)
  {
  }

  /** `username` and `payerInfo` play no part in the answer. */
  lemma OnlySignedFieldsMatter(httpMethod: string, b1: RequestBody, b2: RequestBody,
                               clientConstructs: bool, verify: SignedTriple -> Verification)
    requires SignedFields(b1) == SignedFields(b2)
    ensures Handler(Request(httpMethod, Some(b1)), clientConstructs, verify)
         == Handler(Request(httpMethod, Some(b2)), clientConstructs, verify)
  {
  }

  /** After an exception the handler never reports success. */
  lemma ExceptionNeverSucceeds(req: Request, clientConstructs: bool, verify: SignedTriple -> Verification)
    requires req.httpMethod == "POST" && req.body.Some?
    requires !clientConstructs || verify(SignedFields(req.body.value)) == Threw
    ensures Handler(req, clientConstructs, verify).Responded?
    ensures Handler(req, clientConstructs, verify).response == ServerError
  {
  }
}
