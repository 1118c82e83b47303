/**
 * The payment methods the composite checkout registers at start-up, and the
 * accessible label of each method in the method selector.
 */
module PaymentMethodRegistry {
  import opened Wrappers
  import CartTranslation

  /** The UI components a payment method can plug into the checkout. */
  datatype Component =
    | ApplePayLabel | CreditCardLabel | PaypalLabel
    | EmptyPaymentMethod            // `() => null`
    | CreditCardFieldsWhenActive    // `CreditCardFields` while the method is active
    | StripeCreditCardFields
    | BillingFields | ApplePayBillingForm
    | ApplePaySubmitButton | CreditCardSubmitButton | StripePayButton | PaypalSubmitButton
    | StripeHookProvider

  /** The object passed to `registerPaymentMethod`. */
  datatype PaymentMethod = PaymentMethod(
    id: string,
    labelComponent: Component,
    paymentMethodComponent: Component,
    billingContactComponent: Component,
    submitButtonComponent: Component,
    checkoutWrapper: Option<Component>)

  /** The methods `loadPaymentMethods` registers, in registration order. */
  function RegisteredMethods(): (methods: seq<PaymentMethod>)
    ensures |methods| == 4
  {
    [ PaymentMethod("apple-pay", ApplePayLabel, EmptyPaymentMethod, BillingFields, ApplePaySubmitButton, None),
      PaymentMethod("card", CreditCardLabel, CreditCardFieldsWhenActive, BillingFields, CreditCardSubmitButton, None),
      PaymentMethod("stripe-card", CreditCardLabel, StripeCreditCardFields, BillingFields, StripePayButton,
                    Some(StripeHookProvider)),
      PaymentMethod("paypal", PaypalLabel, EmptyPaymentMethod, ApplePayBillingForm, PaypalSubmitButton, None) ]
  }

  /** The ids of a list of methods, in order. */
  function Ids(methods: seq<PaymentMethod>): (ids: seq<string>)
    ensures |ids| == |methods|
    ensures forall i :: 0 <= i < |methods| ==> ids[i] == methods[i].id
  {
    if methods == [] then [] else [methods[0].id] + Ids(methods[1..])
  }

  /** The registry `registerPaymentMethod` appends to. */
  class Registry {
    var methods: seq<PaymentMethod>

    constructor ()
      ensures methods == []
    {
      methods := [];
    }

    /** `registerPaymentMethod`: append one method. */
    method Register(m: PaymentMethod)
      modifies this
      ensures methods == old(methods) + [m]
    {
      methods := methods + [m];
    }

    /** `loadPaymentMethods`: register the four methods one after another. */
    method LoadPaymentMethods()
      modifies this
      ensures methods == old(methods) + RegisteredMethods()
    {
      var all := RegisteredMethods();
      Register(all[0]);
      Register(all[1]);
      Register(all[2]);
      Register(all[3]);
      assert all == [all[0], all[1], all[2], all[3]];
    }
  }

  /** Registration order is `apple-pay`, `card`, `stripe-card`, `paypal`, and no id repeats. */
  lemma RegistrationOrder()
    ensures Ids(RegisteredMethods()) == ["apple-pay", "card", "stripe-card", "paypal"]
    ensures forall i, j :: 0 <= i < j < |RegisteredMethods()| ==> RegisteredMethods()[i].id != RegisteredMethods()[j].id
  {
  }

  /**
   * Each registered method's components: Apple Pay and PayPal have their own
   * labels and render no payment fields, the two card methods share the card
   * label, every method has its own submit button, and only PayPal takes the
   * Apple Pay billing form.
   */
  lemma RegisteredComponents()
    ensures forall m :: m in RegisteredMethods() ==>
      (m.labelComponent == ApplePayLabel <==> m.id == "apple-pay")
      && (m.labelComponent == CreditCardLabel <==> m.id in {"card", "stripe-card"})
      && (m.labelComponent == PaypalLabel <==> m.id == "paypal")
    ensures forall m :: m in RegisteredMethods() ==>
      (m.id == "apple-pay" ==> m.submitButtonComponent == ApplePaySubmitButton)
      && (m.id == "card" ==> m.submitButtonComponent == CreditCardSubmitButton)
      && (m.id == "stripe-card" ==> m.submitButtonComponent == StripePayButton)
      && (m.id == "paypal" ==> m.submitButtonComponent == PaypalSubmitButton)
    ensures forall m :: m in RegisteredMethods() ==>
      (m.paymentMethodComponent == EmptyPaymentMethod <==> m.id in {"apple-pay", "paypal"})
      && (m.id == "card" ==> m.paymentMethodComponent == CreditCardFieldsWhenActive)
      && (m.id == "stripe-card" ==> m.paymentMethodComponent == StripeCreditCardFields)
      && (m.billingContactComponent == ApplePayBillingForm <==> m.id == "paypal")
      && (m.id != "paypal" ==> m.billingContactComponent == BillingFields)
  {
  }

  /** Only `stripe-card` wraps the checkout, in the Stripe provider. */
  lemma OnlyStripeCardHasWrapper()
    ensures forall m :: m in RegisteredMethods() ==> (m.checkoutWrapper.Some? <==> m.id == "stripe-card")
    ensures forall m :: m in RegisteredMethods() && m.checkoutWrapper.Some? ==> m.checkoutWrapper.value == StripeHookProvider
  {
  }

  const CREDIT_CARD_LABEL := "Check out with a credit card"

  /**
   * `getAriaLabelForPaymentMethodSelector`: the label text handed to
   * `localize` for the four known slugs, and the thrown message otherwise.
   */
  function GetAriaLabelForPaymentMethodSelector(methodSlug: string): (r: Result<string, string>)
    ensures r.Ok? <==> methodSlug in {"apple-pay", "card", "stripe-card", "paypal"}
    ensures methodSlug in {"card", "stripe-card"} ==> r == Ok(CREDIT_CARD_LABEL)
    ensures methodSlug == "apple-pay" ==> r == Ok("Check out with Apple Pay")
    ensures methodSlug == "paypal" ==> r == Ok("Check out with PayPal")
    ensures r.Err? ==> r.error == "Unrecognized payment method slug '" + methodSlug + "'"
  {
    match methodSlug
    case "apple-pay" => Ok("Check out with Apple Pay")
    case "stripe-card" => Ok(CREDIT_CARD_LABEL)
    case "card" => Ok(CREDIT_CARD_LABEL)
    case "paypal" => Ok("Check out with PayPal")
    case _ => Err("Unrecognized payment method slug '" + methodSlug + "'")
  }

  /**
   * The label function never throws for a registered id, and two registered
   * ids share a label exactly when both are card methods.
   */
  lemma LabelsOfRegisteredMethods()
    ensures forall m :: m in RegisteredMethods() ==> GetAriaLabelForPaymentMethodSelector(m.id).Ok?
    ensures forall m, n :: m in RegisteredMethods() && n in RegisteredMethods() ==>
      (GetAriaLabelForPaymentMethodSelector(m.id) == GetAriaLabelForPaymentMethodSelector(n.id)
       <==> (m.id == n.id || (m.id in {"card", "stripe-card"} && n.id in {"card", "stripe-card"})))
  {
  }

  /**
   * Of the slugs the cart translation can produce, `card` and `apple-pay` are
   * registered and labelled, while `ebanx` is neither: the label function
   * throws on it.
   */
  lemma TranslatedSlugsAndLabels(className: string)
    requires CartTranslation.IsKnownPaymentClass(className)
    ensures var slug := CartTranslation.TranslatePaymentMethod(className).value;
      (GetAriaLabelForPaymentMethodSelector(slug).Ok? <==> slug != "ebanx")
      && (slug in Ids(RegisteredMethods()) <==> slug != "ebanx")
  {
  }
}
