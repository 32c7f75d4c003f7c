/** The chat message the server composes for a Stripe webhook event
    (src/server.ts, getApplicationName, getPaymentMethod and summarizeStripeEvent). */
module StripeSummary {
  import opened Js

  const ChargeSucceeded := "charge.succeeded"

  /** Stripe Connect application ids the server knows by name. */
  const LumaId := "ca_HB0JKrk4R6zGWt4fAD9M6iutRhuBdFqd"
  const OpenCollectiveId := "ca_68FQ4jN0XMVhxpnk6gAptwvx90S9VYXF"

  datatype Card = Card(brand: Text)

  /** `payment_method_details`: its `type` and, for cards, the `card` object. */
  datatype PaymentMethodDetails = PaymentMethodDetails(methodType: Text, card: Option<Card>)

  datatype BillingDetails = BillingDetails(name: Text)

  /** The charge object of an event (`event.data.object`). An `Option` field is
      `None` when the JSON holds `null` or nothing there. Amounts are in minor units. */
  datatype Charge = Charge(
    amount: int,
    currency: Text,
    description: Text,
    statementDescriptor: Text,
    billingDetails: Option<BillingDetails>,
    paymentMethodDetails: Option<PaymentMethodDetails>,
    application: Text,
    applicationFee: Option<int>,
    receiptUrl: Text)

  /** A parsed webhook event: its `type` and, when `data.object` exists, the charge. */
  datatype Event = Event(eventType: Text, charge: Option<Charge>)

  /** The name of the platform that created a charge; "Stripe" when the id is unknown or absent. */
  function GetApplicationName(applicationId: Text): (r: string)
    ensures applicationId == Str(LumaId) ==> r == "Luma"
    ensures applicationId == Str(OpenCollectiveId) ==> r == "Open Collective"
    ensures applicationId != Str(LumaId) && applicationId != Str(OpenCollectiveId) ==> r == "Stripe"
  {
    var apps := map[LumaId := "Luma", OpenCollectiveId := "Open Collective"];
    var key := Render(applicationId);
    var found := if key in apps then Str(apps[key]) else Undefined;
    Render(Or(found, Str("Stripe")))
  }

  /** What `apps[application_id] || "Stripe"` yields for an object literal: a name
      (an own entry, or the default), or a member every object inherits from Object.prototype. */
  datatype Lookup = Own(name: string) | Inherited(key: string)

  /** Names of the members a plain object inherits from Object.prototype under Deno
      (ECMAScript 2023, sections 20.1.3 and B.2.2, less `__proto__`, which Deno removes). */
  const InheritedKeys: set<string> := {
    "constructor", "hasOwnProperty", "isPrototypeOf", "propertyIsEnumerable",
    "toLocaleString", "toString", "valueOf",
    "__defineGetter__", "__defineSetter__", "__lookupGetter__", "__lookupSetter__"
  }

  /** getApplicationName as written: the table is an object literal, so an
      inherited member is found, and is truthy, before the "Stripe" default applies. */
  function GetApplicationNameAsWritten(applicationId: Text): (r: Lookup)
    ensures r.Inherited? <==> Render(applicationId) in InheritedKeys
  {
    var key := Render(applicationId);
    if key == LumaId then Own("Luma")
    else if key == OpenCollectiveId then Own("Open Collective")
    else if key in InheritedKeys then Inherited(key)
    else Own("Stripe")
  }

  /** The as-written lookup answers something other than "Stripe" for the unknown id "toString". */
  lemma InheritedKeyEscapesDefault()
    ensures GetApplicationNameAsWritten(Str("toString")) != Own("Stripe")
    ensures GetApplicationName(Str("toString")) == "Stripe"
  {
  }

  /** On every id that is not an Object.prototype member name, in particular on
      every Stripe application id ("ca_..."), the corrected lookup agrees with the code. */
  lemma LookupAgreesOffPrototype(applicationId: Text)
    requires Render(applicationId) !in InheritedKeys
    ensures GetApplicationNameAsWritten(applicationId) == Own(GetApplicationName(applicationId))
  {
  }

  /** The payment method shown in the summary: the card brand for card payments,
      otherwise the method type itself. Reading a missing object throws. */
  function GetPaymentMethod(details: Option<PaymentMethodDetails>): (r: Completion<Text>)
    ensures r.Throw? <==> details.None? || (details.value.methodType == Str("card") && details.value.card.None?)
    ensures r.Throw? ==> r.error == TypeError
    ensures r.Normal? && details.value.methodType == Str("card") ==> r.value == details.value.card.value.brand
    ensures r.Normal? && details.value.methodType != Str("card") ==> r.value == details.value.methodType
  {
    match details
    case None => Throw(TypeError)
    case Some(d) =>
      if d.methodType == Str("card") then
        match d.card
        case None => Throw(TypeError)
        case Some(c) => Normal(c.brand)
      else Normal(d.methodType)
  }

  /** The " (…)" clause: the description, or the statement descriptor when the
      description is missing or empty; nothing when both are. */
  function DescriptionClause(ch: Charge): (r: string)
    ensures r != "" <==> Truthy(ch.description) || Truthy(ch.statementDescriptor)
    ensures Truthy(ch.description) ==> r == " (" + ch.description.s + ")"
    ensures !Truthy(ch.description) && Truthy(ch.statementDescriptor) ==> r == " (" + ch.statementDescriptor.s + ")"
  {
    var description := Or(ch.description, ch.statementDescriptor);
    if Truthy(description) then " (" + Render(description) + ")" else ""
  }

  /** Who paid: the billing name when present and non-empty, otherwise "unknown". */
  function Payer(ch: Charge): (r: string)
    ensures r != ""
    ensures ch.billingDetails.Some? && Truthy(ch.billingDetails.value.name) ==> r == ch.billingDetails.value.name.s
    ensures !(ch.billingDetails.Some? && Truthy(ch.billingDetails.value.name)) ==> r == "unknown"
  {
    var name := match ch.billingDetails
      case Some(b) => b.name
      case None => Undefined;
    Render(Or(name, Str("unknown")))
  }

  predicate HasFee(ch: Charge) {
    ch.applicationFee.Some? && ch.applicationFee.value != 0
  }

  /** The " (including … application fee)" clause, present only for a nonzero fee;
      the fee is followed by the currency code like the amount. */
  function FeeClause(ch: Charge, currency: string, amountText: int -> string): (r: string)
    ensures r != "" <==> HasFee(ch)
    ensures HasFee(ch) ==> r == " (including " + amountText(ch.applicationFee.value) + " " + currency + " application fee)"
  {
    if HasFee(ch) then
      " (including " + amountText(ch.applicationFee.value) + " " + currency + " application fee)"
    else ""
  }

  /** The message for a charge.succeeded event, once the fields that must exist have been read. */
  function ChargeMessage(ch: Charge, currency: string, paymentMethod: Text, amountText: int -> string): string {
    var details :=
      amountText(ch.amount) + " " + currency + FeeClause(ch, currency, amountText)
      + " from " + Payer(ch) + DescriptionClause(ch)
      + " [[View Receipt](<" + Render(ch.receiptUrl) + ">)]"
      + " (using " + Render(paymentMethod) + " via " + GetApplicationName(ch.application) + ")";
    "Received " + details
  }

  /** Whether every object the charge.succeeded summary dereferences is there. */
  predicate Summarizable(ev: Event) {
    && ev.charge.Some?
    && ev.charge.value.currency.Str?
    && GetPaymentMethod(ev.charge.value.paymentMethodDetails).Normal?
  }

  /** summarizeStripeEvent. `amountText` renders a minor-unit amount the way
      `${amount / 100}` does. A charge.succeeded summary throws exactly when an
      object it reads is missing; every other event gets the catch-all message. */
  function SummarizeStripeEvent(ev: Event, amountText: int -> string): (r: Completion<string>)
    ensures ev.eventType != Str(ChargeSucceeded) ==> r == Normal("Received Stripe event: " + Render(ev.eventType))
    ensures r.Throw? <==> ev.eventType == Str(ChargeSucceeded) && !Summarizable(ev)
    ensures r.Throw? ==> r.error == TypeError
    ensures r.Normal? ==> |r.value| >= 9 && r.value[..9] == "Received "
  {
    if ev.eventType == Str(ChargeSucceeded) then
      match ev.charge
      case None => Throw(TypeError)
      case Some(ch) =>
        match ch.currency
        case Str(c) =>
          (match GetPaymentMethod(ch.paymentMethodDetails)
           case Throw(e) => Throw(e)
           case Normal(pm) => Normal(ChargeMessage(ch, ToUpperCase(c), pm, amountText)))
        case _ => Throw(TypeError)
    else
      Normal("Received Stripe event: " + Render(ev.eventType))
  }

  /** The currency is shown upper-cased, so its case in the event does not matter. */
  lemma {:induction false} SummaryIgnoresCurrencyCase(ev: Event, code: string, amountText: int -> string)
    requires ev.charge.Some?
    ensures var upper := ev.(charge := Some(ev.charge.value.(currency := Str(ToUpperCase(code)))));
            var given := ev.(charge := Some(ev.charge.value.(currency := Str(code))));
            SummarizeStripeEvent(given, amountText) == SummarizeStripeEvent(upper, amountText)
  {
    ToUpperCaseIdempotent(code);
  }

  /** For a readable charge.succeeded event the message names, in order, the amount and
      upper-cased currency, the fee clause, the payer, the description clause, the receipt
      link, the payment method and the originating platform. */
  lemma ChargeSummaryLayout(ev: Event, amountText: int -> string)
    requires ev.eventType == Str(ChargeSucceeded) && Summarizable(ev)
    ensures var ch := ev.charge.value;
            var currency := ToUpperCase(ch.currency.s);
            SummarizeStripeEvent(ev, amountText) == Normal("Received " + (
              amountText(ch.amount) + " " + currency + FeeClause(ch, currency, amountText)
              + " from " + Payer(ch) + DescriptionClause(ch)
              + " [[View Receipt](<" + Render(ch.receiptUrl) + ">)]"
              + " (using " + Render(GetPaymentMethod(ch.paymentMethodDetails).value)
              + " via " + GetApplicationName(ch.application) + ")"))
  {
  }

  /** A fee of 0 reads as no fee: the summary is the one for a charge without a fee. */
  lemma ZeroFeeIsNoFee(ev: Event, amountText: int -> string)
    requires ev.charge.Some?
    ensures SummarizeStripeEvent(ev.(charge := Some(ev.charge.value.(applicationFee := Some(0)))), amountText)
            == SummarizeStripeEvent(ev.(charge := Some(ev.charge.value.(applicationFee := None))), amountText)
  {
  }

  /** An empty, null or absent description all give the same summary. */
  lemma FalsyDescriptionsAgree(ev: Event, d: Text, d': Text, amountText: int -> string)
    requires ev.charge.Some? && !Truthy(d) && !Truthy(d')
    ensures SummarizeStripeEvent(ev.(charge := Some(ev.charge.value.(description := d))), amountText)
            == SummarizeStripeEvent(ev.(charge := Some(ev.charge.value.(description := d'))), amountText)
  {
  }

  /** An empty or missing billing name gives the same summary as no billing details at all. */
  lemma FalsyBillingNameIsNoBillingDetails(ev: Event, name: Text, amountText: int -> string)
    requires ev.charge.Some? && !Truthy(name)
    ensures SummarizeStripeEvent(ev.(charge := Some(ev.charge.value.(billingDetails := Some(BillingDetails(name))))), amountText)
            == SummarizeStripeEvent(ev.(charge := Some(ev.charge.value.(billingDetails := None))), amountText)
  {
  }

  /** The charge.succeeded event the repository's tests use. */
  function TestFixture(): Event {
    Event(Str(ChargeSucceeded), Some(Charge(
      2000, Str("usd"), Str("Test charge"), Str("TEST CHARGE"),
      Some(BillingDetails(Str("John Doe"))),
      Some(PaymentMethodDetails(Str("card"), Some(Card(Str("visa"))))),
      Str(LumaId), Some(200), Str("https://receipt.stripe.com/test"))))
  }

  /** The message the repository's test expects for its fixture. */
  const TestExpectedMessage :=
    "Received $20.00 (including $2.00 Luma application fee) from John Doe (Test charge) (\U{1F4B3} visa) [[View Receipt](<https://receipt.stripe.com/test>)]"

  /** What this code makes of the test fixture: the currency code follows the amount,
      with no currency symbol and no emoji, and the method and platform close the message,
      so whatever the amount rendering, it is not the message the test expects. */
  lemma TestFixtureSummary(amountText: int -> string)
    ensures SummarizeStripeEvent(TestFixture(), amountText) == Normal("Received " + (
      amountText(2000) + " " + "USD" + (" (including " + amountText(200) + " " + "USD" + " application fee)")
      + " from " + "John Doe" + " (Test charge)"
      + " [[View Receipt](<" + "https://receipt.stripe.com/test" + ">)]"
      + " (using " + "visa" + " via " + "Luma" + ")"))
    ensures SummarizeStripeEvent(TestFixture(), amountText) != Normal(TestExpectedMessage)
  {
    var ch := TestFixture().charge.value;
    assert ToUpperCase("usd") == "USD";
    assert DescriptionClause(ch) == " (Test charge)";
    assert Payer(ch) == "John Doe";
    ChargeSummaryLayout(TestFixture(), amountText);
  }
}
