/**
 * The round trip after the gateway's checkout: the support page posts the
 * signed fields to the callback endpoint and reacts to its JSON. How the
 * request reaches `handler` depends on the routing: as written the module
 * sits in the app directory with no named `POST`, so no confirmation is
 * accepted; served as the pages-directory API route its handler is written
 * for, the form is emptied exactly when the gateway's verifier accepts the
 * signature.
 */
module Checkout {
  import opened Options
  import PaymentPage
  import opened RazorpayRoute

  /** What the checkout widget hands to the page's `handler`. */
  datatype CheckoutResponse = CheckoutResponse(paymentId: Option<string>, orderId: Option<string>, signature: Option<string>)

  function SignedByGateway(checkout: CheckoutResponse): SignedTriple {
    SignedTriple(checkout.orderId, checkout.paymentId, checkout.signature)
  }

  /** The POST the page sends: the three signed fields, the creator and the form as `payerInfo`. */
  function ConfirmationRequest(checkout: CheckoutResponse, username: string, form: PaymentPage.Form): (req: Request)
    ensures req.httpMethod == "POST" && req.body.Some?
    ensures SignedFields(req.body.value) == SignedByGateway(checkout)
  {
    Request("POST", Some(RequestBody(
      checkout.paymentId, checkout.orderId, checkout.signature, Some(username),
      Some(PayerInfo(Some(form.name), Some(form.message), Some(form.amount))))))
  }

  /**
   * `await paymentResponse.json()` on the handler's outcome: a reply with no
   * JSON body (an escaped exception, or a 405) cannot be read.
   */
  function PageReply(outcome: Outcome): (reply: PaymentPage.VerificationReply)
    ensures outcome.Responded? && outcome.response.json.Some? ==>
              reply == PaymentPage.Json(outcome.response.json.value.success, outcome.response.json.value.message)
    ensures outcome.Uncaught? || outcome.response.json.None? ==> reply.Unreadable?
  {
    match outcome
    case Uncaught => PaymentPage.Unreadable
    case Responded(response, _) =>
      match response.json
      case None => PaymentPage.Unreadable
      case Some(j) => PaymentPage.Json(j.success, j.message)
  }

  /**
   * How a request for `/api/razorpay` reaches the route module. As written
   * the module sits in the app directory with no named method export; the
   * `handler(req, res)` it holds is written for a pages-directory API route
   * (`pages/api/razorpay.js`), where it receives every method.
   */
  datatype Routing = AppRouteWithoutNamedExports | PagesApiRoute

  /** `src/app/api/razorpay/route.js` as written. */
  const RoutingAsWritten := AppRouteWithoutNamedExports

  /** The routing `handler(req, res)` is written for. */
  const RoutingIntended := PagesApiRoute

  /**
   * An app-directory route with no named export answers every method 405
   * with no body and never calls `handler`; a pages-directory API route
   * passes every request to `handler`.
   */
  function Dispatch(routing: Routing, req: Request, clientConstructs: bool,
                    verify: SignedTriple -> Verification): (r: Outcome)
    ensures routing.AppRouteWithoutNamedExports? ==> r == Responded(Response(405, None), [])
  {
    match routing
    case AppRouteWithoutNamedExports => Responded(Response(405, None), [])
    case PagesApiRoute => Handler(req, clientConstructs, verify)
  }

  /** As written, no confirmation is ever accepted: the page always shows "Payment verification failed". */
  lemma AsWrittenConfirmationFails(checkout: CheckoutResponse, username: string, form: PaymentPage.Form,
                                   clientConstructs: bool, verify: SignedTriple -> Verification)
    ensures var reply := PageReply(Dispatch(RoutingAsWritten, ConfirmationRequest(checkout, username, form),
                                            clientConstructs, verify));
      && reply.Unreadable?
      && !PaymentPage.Confirmed(reply)
      && PaymentPage.FailureToast(reply).text == "Payment verification failed"
  {
  }

  /** Served as a pages-directory API route, routing is exactly `handler`, for every request. */
  lemma IntendedDispatchIsHandler(req: Request, clientConstructs: bool, verify: SignedTriple -> Verification)
    ensures Dispatch(RoutingIntended, req, clientConstructs, verify) == Handler(req, clientConstructs, verify)
  {
  }

  /**
   * For the page's own request, routed to `handler` (`RoutingIntended`): the
   * payment is confirmed exactly when the verifier accepts the gateway's triple; a rejected signature shows
   * "Invalid signature", and an exception shows "Server error".
   */
  lemma ConfirmationRoundTrip(checkout: CheckoutResponse, username: string, form: PaymentPage.Form,
                              clientConstructs: bool, verify: SignedTriple -> Verification)
    ensures var reply := PageReply(Dispatch(RoutingIntended, ConfirmationRequest(checkout, username, form),
                                            clientConstructs, verify));
      && (PaymentPage.Confirmed(reply) <==> clientConstructs && verify(SignedByGateway(checkout)) == Verdict(true))
      && (clientConstructs && verify(SignedByGateway(checkout)) == Verdict(false) ==>
            PaymentPage.FailureToast(reply).text == "Invalid signature")
      && (!clientConstructs || verify(SignedByGateway(checkout)) == Threw ==>
            PaymentPage.FailureToast(reply).text == "Server error")
  {
  }

  /**
   * The checkout `handler` of the page end to end, with the endpoint routed
   * to `handler`: post the confirmation, then react to the reply. The form is emptied exactly when the verifier
   * accepted the signature.
   */
  method ConfirmPayment(page: PaymentPage.SupportPage, checkout: CheckoutResponse,
                        clientConstructs: bool, verify: SignedTriple -> Verification,
                        reload: PaymentPage.FetchResult)
    returns (toasts: seq<PaymentPage.Toast>)
    requires page.Valid()
    modifies page`form, page`currentUser, page`payments
    ensures page.Valid()
    ensures clientConstructs && verify(SignedByGateway(checkout)) == Verdict(true) ==>
              && page.form == PaymentPage.EmptyForm
              && toasts == (if reload.Fetched? then [] else [PaymentPage.Toast(PaymentPage.Error, "Failed to load data")])
                           + [PaymentPage.Toast(PaymentPage.Success, "Payment confirmed!")]
              && (reload.FetchFailed? ==>
                    page.currentUser == old(page.currentUser) && page.payments == old(page.payments))
              && (reload.Fetched? ==>
                    page.currentUser == (if reload.user.Some? then reload.user.value else PaymentPage.NoCreator)
                    && page.payments == (if reload.payments.Some? then reload.payments.value else []))
    ensures !(clientConstructs && verify(SignedByGateway(checkout)) == Verdict(true)) ==>
              && page.form == old(page.form) && page.currentUser == old(page.currentUser)
              && page.payments == old(page.payments)
              && toasts == [PaymentPage.FailureToast(PageReply(Dispatch(RoutingIntended,
                               ConfirmationRequest(checkout, page.username, old(page.form)), clientConstructs, verify)))]
    ensures clientConstructs && verify(SignedByGateway(checkout)) == Verdict(false) ==>
              toasts == [PaymentPage.Toast(PaymentPage.Error, "Invalid signature")]
    ensures (!clientConstructs || verify(SignedByGateway(checkout)) == Threw) ==>
              toasts == [PaymentPage.Toast(PaymentPage.Error, "Server error")]
  {
    var outcome := Dispatch(RoutingIntended, ConfirmationRequest(checkout, page.username, page.form), clientConstructs, verify);
    ConfirmationRoundTrip(checkout, page.username, page.form, clientConstructs, verify);
    toasts := page.OnVerificationReply(PageReply(outcome), reload);
  }
}
