/**
 * The support page of a creator (`PaymentPage`): the payment form and its
 * sanitised updates, the guard chain in front of `initiate`, the amounts the
 * pay buttons pass, the reaction to the verification reply, and the
 * supporter summary shown above the form.
 */
module PaymentPage {
  import opened Options
  import opened Sanitizer
  import opened Numbers

  // ---------------------------------------------------------------- the form

  /** The three inputs of the form; an `onChange` event names one of them. */
  datatype FormField = Name | Message | Amount

  /** `paymentform`: the text of the three inputs. */
  datatype Form = Form(name: string, message: string, amount: string) {

    function Get(field: FormField): string {
      match field
      case Name => name
      case Message => message
      case Amount => amount
    }

    /** `{...prev, [field]: value}` */
    function With(field: FormField, value: string): (f: Form)
      ensures f.Get(field) == value
      ensures forall other :: other != field ==> f.Get(other) == Get(other)
    {
      match field
      case Name => this.(name := value)
      case Message => this.(message := value)
      case Amount => this.(amount := value)
    }

    /** No field holds a `<`. */
    predicate Clean() {
      forall field :: '<' !in Get(field)
    }
  }

  /** The form as the page starts, and as a confirmed payment leaves it. */
  const EmptyForm := Form("", "", "")

  /**
   * `handleChange`: the named field takes the sanitised value, the others
   * keep theirs, and a clean form stays clean.
   */
  function ChangeForm(form: Form, field: FormField, value: Option<string>): (f: Form)
    ensures f.Get(field) == SanitizeInput(value)
    ensures forall other :: other != field ==> f.Get(other) == form.Get(other)
    ensures form.Clean() ==> f.Clean()
  {
    form.With(field, SanitizeInput(value))
  }

  lemma EmptyFormIsClean()
    ensures EmptyForm.Clean()
  {
    assert forall field :: EmptyForm.Get(field) == "";
  }

  /**
   * A controlled input that re-sends the value it displays leaves a clean
   * form as it is: sanitising a stored value changes nothing.
   */
  lemma ChangeFormResendsDisplayed(form: Form, field: FormField)
    requires form.Clean()
    ensures ChangeForm(form, field, Some(form.Get(field))) == form
  {
    SanitizeIdentity(form.Get(field));
  }

  // -------------------------------------------------------- the guard of pay

  /** `currentUser`: the creator's stored gateway credentials, if any. */
  datatype Creator = Creator(razrpayId: Option<string>, razrpaySecret: Option<string>)

  /** `{}`: the creator before (or without) a successful fetch. */
  const NoCreator := Creator(None, None)

  /** Both halves of the credential pair are set and non-empty. */
  predicate HasCredentials(c: Creator) {
    TruthyText(c.razrpayId) && TruthyText(c.razrpaySecret)
  }

  /** The smallest amount `pay` accepts, in minor units (one rupee). */
  const MinimumAmount: real := 100.0

  /** `!amount || amount < 100`: holds exactly when the amount is not a number of at least 100. */
  function AmountRejected(amount: Num): (rejected: bool)
    ensures rejected <==> !(amount.Finite? && amount.value >= MinimumAmount)
  {
    !TruthyNum(amount) || (amount.Finite? && amount.value < MinimumAmount)
  }

  /** The outcome of the checks in front of `initiate`. */
  datatype PayCheck = NameRequired | EnterNameFirst | AmountTooLow | NoPaymentMethods | Proceed

  /**
   * The guard chain of `pay`: name, then amount, then credentials; the first
   * failing check decides, and only when all three pass does `pay` proceed.
   */
  function PayGuard(name: string, amount: Num, creator: Creator): (r: PayCheck)
    ensures r == NameRequired <==> name == ""
    ensures r == AmountTooLow <==> name != "" && !(amount.Finite? && amount.value >= MinimumAmount)
    ensures r == NoPaymentMethods <==>
              name != "" && amount.Finite? && amount.value >= MinimumAmount && !HasCredentials(creator)
    ensures r == Proceed <==>
              name != "" && amount.Finite? && amount.value >= MinimumAmount && HasCredentials(creator)
  {
    if name == "" then NameRequired
    else if AmountRejected(amount) then AmountTooLow
    else if !HasCredentials(creator) then NoPaymentMethods
    else Proceed
  }

  /** `quickPay`: refuses before `pay` when the name is empty, otherwise the guard of `pay`. */
  function QuickPayGuard(name: string, amount: Num, creator: Creator): (r: PayCheck)
    ensures r == EnterNameFirst <==> name == ""
    ensures r != NameRequired
    ensures r != EnterNameFirst ==> r == PayGuard(name, amount, creator)
  {
    if name == "" then EnterNameFirst else PayGuard(name, amount, creator)
  }

  datatype ToastKind = Error | Success

  /** A message shown to the supporter. */
  datatype Toast = Toast(kind: ToastKind, text: string)

  /** What a pay click leads to: an error toast, or the call `initiate(amount, username, paymentform)`. */
  datatype PayResult = Refused(toast: Toast) | Initiate(amount: Num, username: string, payerInfo: Form)

  /** The toast of a failed check, or the call to `initiate` once every check passed. */
  function PayOutcome(check: PayCheck, amount: Num, username: string, form: Form): (r: PayResult)
    ensures r.Initiate? <==> check == Proceed
    ensures r.Initiate? ==> r.amount == amount && r.username == username && r.payerInfo == form
    ensures r.Refused? ==> r.toast.kind == Error
  {
    match check
    case NameRequired => Refused(Toast(Error, "Name is required"))
    case EnterNameFirst => Refused(Toast(Error, "Please enter your name first"))
    case AmountTooLow => Refused(Toast(Error, "Amount must be at least \U{20A8}1"))
    case NoPaymentMethods => Refused(Toast(Error, username + " has not set up payment methods"))
    case Proceed => Initiate(amount, username, form)
  }

  // --------------------------------------------------- amounts of the buttons

  /** "Pay Now": `paymentform.amount ? paymentform.amount * 100 : 0`. */
  function PayNowAmount(field: string): Num {
    if field == "" then Finite(0.0) else Times100(ToNumber(field))
  }

  /** An empty amount field passes 0, which the amount check always refuses. */
  lemma PayNowEmptyRefused(name: string, creator: Creator)
    ensures PayNowAmount("") == Finite(0.0)
    ensures name != "" ==> PayGuard(name, PayNowAmount(""), creator) == AmountTooLow
  {
  }

  /** A whole number of rupees typed into the field passes the amount check exactly when it is at least one. */
  lemma PayNowWholeRupees(name: string, rupees: nat, creator: Creator)
    requires name != "" && HasCredentials(creator)
    ensures PayNowAmount(ShowNat(rupees)) == Finite(rupees as real * 100.0)
    ensures PayGuard(name, PayNowAmount(ShowNat(rupees)), creator) == Proceed <==> rupees >= 1
  {
    ToNumberShowNat(rupees);
  }

  /** A decimal amount `whole.fraction` in the field passes the amount check exactly when it is at least one rupee. */
  lemma PayNowDecimalRupees(name: string, whole: string, fraction: string, creator: Creator)
    requires name != "" && HasCredentials(creator)
    requires AllDigits(whole) && AllDigits(fraction) && (|whole| > 0 || |fraction| > 0)
    ensures PayNowAmount(whole + "." + fraction) == Finite(DecimalValue(whole, fraction) * 100.0)
    ensures PayGuard(name, PayNowAmount(whole + "." + fraction), creator) == Proceed
            <==> DecimalValue(whole, fraction) >= 1.0
  {
    ToNumberDecimal(whole, fraction);
  }

  /** A negative amount in the field is always refused by the amount check. */
  lemma PayNowNegativeRefused(name: string, u: string, creator: Creator)
    requires name != "" && u != "" && u[0] != '-' && u[0] != '+'
    ensures PayGuard(name, PayNowAmount("-" + u), creator) == AmountTooLow
  {
    ToNumberNegated(u);
  }

  /** The rupee values of the quick-pay buttons. */
  const QuickPayRupees: seq<nat> := [10, 100, 500, 1000]

  /** `amount * 100` for each quick-pay button: none is below the minimum. */
  function QuickPayAmounts(): (amounts: seq<Num>)
    ensures |amounts| == |QuickPayRupees|
    ensures forall i :: 0 <= i < |amounts| ==> amounts[i] == Finite((QuickPayRupees[i] * 100) as real)
    ensures forall i :: 0 <= i < |amounts| ==> !AmountRejected(amounts[i])
  {
    seq(|QuickPayRupees|, i requires 0 <= i < |QuickPayRupees| => Finite((QuickPayRupees[i] * 100) as real))
  }

  /** A quick-pay button never meets the amount error: only the name or the credentials can stop it. */
  lemma QuickPayNeverTooLow(name: string, creator: Creator, i: nat)
    requires i < |QuickPayRupees|
    ensures QuickPayGuard(name, QuickPayAmounts()[i], creator) != AmountTooLow
    ensures name != "" && HasCredentials(creator) ==> QuickPayGuard(name, QuickPayAmounts()[i], creator) == Proceed
  {
    assert !AmountRejected(QuickPayAmounts()[i]);
  }

  // ------------------------------------------------------ the supporter list

  /** A stored payment as `fetchPayments` returns it. */
  datatype Payment = Payment(name: Option<string>, message: Option<string>, amount: Option<int>)

  /** `b.amount || 0` */
  function AmountOrZero(p: Payment): int {
    match p.amount
    case Some(a) => a
    case None => 0
  }

  /** `payments.reduce((a, b) => a + (b.amount || 0), 0)`: a left fold. */
  function TotalRaised(ps: seq<Payment>): int
    decreases |ps|
  {
    if ps == [] then 0 else TotalRaised(ps[..|ps| - 1]) + AmountOrZero(ps[|ps| - 1])
  }

  /** The total of two runs of payments is the sum of their totals. */
  lemma {:induction false} TotalRaisedAppend(a: seq<Payment>, b: seq<Payment>)
    ensures TotalRaised(a + b) == TotalRaised(a) + TotalRaised(b)
    decreases |b|
  {
    if b != [] {
      var last := |b| - 1;
      assert (a + b)[..|a + b| - 1] == a + b[..last];
      assert (a + b)[|a + b| - 1] == b[last];
      TotalRaisedAppend(a, b[..last]);
    } else {
      assert a + b == a;
    }
  }

  /** The total counts every payment once, a missing amount as 0, in any position. */
  lemma TotalRaisedCons(p: Payment, ps: seq<Payment>)
    ensures TotalRaised([p] + ps) == AmountOrZero(p) + TotalRaised(ps)
  {
    TotalRaisedAppend([p], ps);
    assert [p][..0] == [];
  }

  predicate NonNegativeAmounts(ps: seq<Payment>) {
    forall i :: 0 <= i < |ps| ==> AmountOrZero(ps[i]) >= 0
  }

  /** With no negative amount, the total of a prefix never exceeds the whole total. */
  lemma {:induction false} TotalRaisedPrefix(ps: seq<Payment>, k: nat)
    requires k <= |ps| && NonNegativeAmounts(ps)
    ensures 0 <= TotalRaised(ps[..k]) <= TotalRaised(ps)
    decreases |ps|
  {
    if k < |ps| {
      var init := ps[..|ps| - 1];
      assert init[..k] == ps[..k];
      TotalRaisedPrefix(init, k);
      assert AmountOrZero(ps[|ps| - 1]) >= 0;
    } else {
      assert ps[..k] == ps;
      if ps != [] {
        TotalRaisedPrefix(ps[..|ps| - 1], |ps| - 1);
        assert ps[..|ps| - 1][..|ps| - 1] == ps[..|ps| - 1];
      }
    }
  }

  /** One entry of the supporter list. */
  datatype SupporterRow = SupporterRow(name: string, amount: int, message: Option<string>)

  /** `p.name || 'Anonymous'`, `p.amount || 0`, and the message only when it is truthy. */
  function Row(p: Payment): (row: SupporterRow)
    ensures !TruthyText(p.name) ==> row.name == "Anonymous"
    ensures TruthyText(p.name) ==> row.name == p.name.value
    ensures row.amount == AmountOrZero(p)
    ensures row.message.Some? <==> TruthyText(p.message)
    ensures row.message.Some? ==> row.message == p.message
  {
    SupporterRow(
      if TruthyText(p.name) then p.name.value else "Anonymous",
      AmountOrZero(p),
      if TruthyText(p.message) then p.message else None)
  }

  /** How many supporters the list shows. */
  const ListedSupporters: nat := 7

  /** `payments.slice(0, 7).map(...)`: the first seven payments, in their order. */
  function TopSupporters(ps: seq<Payment>): (rows: seq<SupporterRow>)
    ensures |rows| == if |ps| < ListedSupporters then |ps| else ListedSupporters
    ensures forall i :: 0 <= i < |rows| ==> rows[i] == Row(ps[i])
  {
    var shown := if |ps| < ListedSupporters then ps else ps[..ListedSupporters];
    seq(|shown|, i requires 0 <= i < |shown| => Row(shown[i]))
  }

  /** The header line and the supporter list. */
  datatype Summary = Summary(count: nat, raised: int, supporters: seq<SupporterRow>, noPaymentsYet: bool)

  function Summarize(ps: seq<Payment>): (s: Summary)
    ensures s.count == |ps|
    ensures s.raised == TotalRaised(ps)
    ensures s.supporters == TopSupporters(ps)
    ensures s.noPaymentsYet <==> |ps| == 0
    ensures s.noPaymentsYet <==> s.supporters == []
    ensures |s.supporters| <= ListedSupporters
  {
    Summary(|ps|, TotalRaised(ps), TopSupporters(ps), |ps| == 0)
  }

  // ---------------------------------------------------- the page and its state

  /** What `Promise.all([fetchUser, fetchPayments])` settles to. */
  datatype FetchResult = Fetched(user: Option<Creator>, payments: Option<seq<Payment>>) | FetchFailed

  /** The JSON of the verification reply, or a reply that cannot be read (network or parse error). */
  datatype VerificationReply = Json(success: bool, message: Option<string>) | Unreadable

  /** `result.success`: only a readable reply that says so confirms the payment. */
  predicate Confirmed(reply: VerificationReply) {
    reply.Json? && reply.success
  }

  /** `result.message || "Payment verification failed"`, or the catch block's message. */
  function FailureToast(reply: VerificationReply): (t: Toast)
    ensures t.kind == Error
    ensures reply.Json? && TruthyText(reply.message) ==> t.text == reply.message.value
    ensures !(reply.Json? && TruthyText(reply.message)) ==> t.text == "Payment verification failed"
  {
    match reply
    case Json(_, message) =>
      Toast(Error, if TruthyText(message) then message.value else "Payment verification failed")
    case Unreadable => Toast(Error, "Payment verification failed")
  }

  /** The state a `PaymentPage` component holds for one creator's page. */
  class SupportPage {
    const username: string
    var form: Form
    var currentUser: Creator
    var payments: seq<Payment>

    /** The form never holds a `<`. */
    ghost predicate Valid()
      reads this
    {
      form.Clean()
    }

    constructor (username: string)
      ensures Valid()
      ensures this.username == username
      ensures form == EmptyForm && currentUser == NoCreator && payments == []
    {
      this.username := username;
      form := EmptyForm;
      currentUser := NoCreator;
      payments := [];
      EmptyFormIsClean();
    }

    /** `handleChange`: stores the sanitised value in the named field. */
    method HandleChange(field: FormField, value: Option<string>)
      requires Valid()
      modifies this`form
      ensures Valid()
      ensures form == ChangeForm(old(form), field, value)
    {
      form := ChangeForm(form, field, value);
    }

    /** `getData`: `userData || {}` and `paymentData || []`; on failure a toast and no change. */
    method GetData(result: FetchResult) returns (toasts: seq<Toast>)
      modifies this`currentUser, this`payments
      ensures result.Fetched? ==>
                && currentUser == (if result.user.Some? then result.user.value else NoCreator)
                && payments == (if result.payments.Some? then result.payments.value else [])
                && toasts == []
      ensures result.FetchFailed? ==>
                && currentUser == old(currentUser) && payments == old(payments)
                && toasts == [Toast(Error, "Failed to load data")]
    {
      match result
      case Fetched(user, fetched) =>
        currentUser := if user.Some? then user.value else NoCreator;
        payments := if fetched.Some? then fetched.value else [];
        toasts := [];
      case FetchFailed =>
        toasts := [Toast(Error, "Failed to load data")];
    }

    /** `pay(amount)`: the three checks in order, then the call to `initiate`. */
    method Pay(amount: Num) returns (r: PayResult)
      ensures r == PayOutcome(PayGuard(form.name, amount, currentUser), amount, username, form)
    {
      if form.name == "" {
        return Refused(Toast(Error, "Name is required"));
      }
      if !TruthyNum(amount) || (amount.Finite? && amount.value < 100.0) {
        return Refused(Toast(Error, "Amount must be at least \U{20A8}1"));
      }
      if !TruthyText(currentUser.razrpayId) || !TruthyText(currentUser.razrpaySecret) {
        return Refused(Toast(Error, username + " has not set up payment methods"));
      }
      r := Initiate(amount, username, form);
    }

    /** `quickPay(amount)`: the name check of its own, then `pay`. */
    method QuickPay(amount: Num) returns (r: PayResult)
      ensures r == PayOutcome(QuickPayGuard(form.name, amount, currentUser), amount, username, form)
    {
      if form.name == "" {
        return Refused(Toast(Error, "Please enter your name first"));
      }
      r := Pay(amount);
    }

    /** The "Pay Now" button. */
    method PayNow() returns (r: PayResult)
      ensures r == PayOutcome(PayGuard(form.name, PayNowAmount(form.amount), currentUser),
                              PayNowAmount(form.amount), username, form)
    {
      var amount := if form.amount != "" then Times100(ToNumber(form.amount)) else Finite(0.0);
      r := Pay(amount);
    }

    /**
     * The checkout handler's reaction to the verification reply: a confirmed
     * payment empties the form, reloads the data and reports success; any
     * other reply leaves the state alone and reports the failure.
     */
    method OnVerificationReply(reply: VerificationReply, reload: FetchResult) returns (toasts: seq<Toast>)
      requires Valid()
      modifies this`form, this`currentUser, this`payments
      ensures Valid()
      ensures Confirmed(reply) ==> form == EmptyForm
      ensures Confirmed(reply) && reload.Fetched? ==>
                && currentUser == (if reload.user.Some? then reload.user.value else NoCreator)
                && payments == (if reload.payments.Some? then reload.payments.value else [])
                && toasts == [Toast(Success, "Payment confirmed!")]
      ensures Confirmed(reply) && reload.FetchFailed? ==>
                && currentUser == old(currentUser) && payments == old(payments)
                && toasts == [Toast(Error, "Failed to load data"), Toast(Success, "Payment confirmed!")]
      ensures !Confirmed(reply) ==>
                && form == old(form) && currentUser == old(currentUser) && payments == old(payments)
                && toasts == [FailureToast(reply)]
    {
      if Confirmed(reply) {
        form := EmptyForm;
        EmptyFormIsClean();
        var loadToasts := GetData(reload);
        toasts := loadToasts + [Toast(Success, "Payment confirmed!")];
      } else {
        toasts := [FailureToast(reply)];
      }
    }

    /** The header counts and the supporter list for the current payments. */
    function CurrentSummary(): (s: Summary)
      reads this
      ensures s.count == |payments| && s.raised == TotalRaised(payments)
    {
      Summarize(payments)
    }
  }
}
