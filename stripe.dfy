/**
 * Classification of the errors the Stripe client library reports while the
 * checkout tokenizes a card or confirms a payment intent.
 *
 * The library itself is not modelled: its reply to `createPaymentMethod` or
 * `handleCardPayment` is a `Reply`, either an error object or a success value.
 */
module StripeErrors {
  import opened Wrappers

  /** The error object Stripe returns: `type`, an optional `code`, and `message`. */
  datatype StripeError = StripeError(errorType: string, code: Option<string>, message: string)

  /** The reply of a Stripe call: `{ error }` or the success value. */
  datatype Reply<T> = ReplyError(error: StripeError) | ReplyOk(value: T)

  /** One key of a `messagesByField` object and the messages stored under it. */
  datatype FieldMessages = FieldMessages(field: string, messages: seq<string>)

  /**
   * A `messagesByField` object, as its entries in `Object.keys` order. A
   * JavaScript object holds each key once; the maps built here have a single
   * entry, so their keys are distinct.
   */
  type MessagesByField = seq<FieldMessages>

  /**
   * The `message` property of a thrown error: a string, the array stored under
   * a field, or `undefined`.
   */
  datatype ErrorMessage = MessageText(text: string) | MessageList(list: seq<string>) | MessageUndefined

  /** The errors the checkout throws when a Stripe call fails. */
  datatype ThrownError =
    | StripeValidationError(message: ErrorMessage, code: Option<string>, messagesByField: MessagesByField)
    | PlainError(message: ErrorMessage)
    | StripePaymentMethodError(message: ErrorMessage, stripeError: StripeError)

  /** A settled promise: resolved with a value or rejected with a thrown error. */
  datatype Settled<T> = Resolved(value: T) | Rejected(thrown: ThrownError)

  const VALIDATION_ERROR := "validation_error"
  const CARD_NUMBER := "card_number"
  const CARD_CVC := "card_cvc"
  const CARD_EXPIRY := "card_expiry"

  /** JavaScript truthiness of an optional string. */
  predicate Truthy(s: Option<string>) {
    s.Some? && s.value != ""
  }

  /** The six validation codes that name a card field. */
  predicate IsFieldCode(code: string) {
    code in {"incomplete_number", "invalid_number", "incomplete_cvc", "invalid_cvc",
             "incomplete_expiry", "invalid_expiry"}
  }

  /** The card field a validation code refers to. */
  function FieldForCode(code: string): (field: Option<string>)
    ensures field.Some? <==> IsFieldCode(code)
    ensures field.Some? ==> field.value in {CARD_NUMBER, CARD_CVC, CARD_EXPIRY}
  {
    match code
    case "incomplete_number" => Some(CARD_NUMBER)
    case "invalid_number" => Some(CARD_NUMBER)
    case "incomplete_cvc" => Some(CARD_CVC)
    case "invalid_cvc" => Some(CARD_CVC)
    case "incomplete_expiry" => Some(CARD_EXPIRY)
    case "invalid_expiry" => Some(CARD_EXPIRY)
    case _ => None
  }

  /**
   * `getValidationErrorsFromStripeError`: a one-entry field map for a
   * validation error whose code names a card field, and `null` otherwise.
   */
  function GetValidationErrorsFromStripeError(e: StripeError): (r: Option<MessagesByField>)
    ensures r.Some? <==> e.errorType == VALIDATION_ERROR && Truthy(e.code) && IsFieldCode(e.code.value)
    ensures r.Some? ==> |r.value| == 1 && r.value[0].messages == [e.message]
    ensures r.Some? ==> Some(r.value[0].field) == FieldForCode(e.code.value)
  {
    if e.errorType != VALIDATION_ERROR || !Truthy(e.code) then None
    else
      match FieldForCode(e.code.value)
      case Some(field) => Some([FieldMessages(field, [e.message])])
      case None => None
  }

  /**
   * For every suffix, the `incomplete_` and `invalid_` codes name the same
   * field, `card_` followed by the suffix, when the suffix is `number`, `cvc`
   * or `expiry`, and no field otherwise.
   */
  lemma IncompleteAndInvalidAgree(suffix: string)
    ensures FieldForCode("incomplete_" + suffix) == FieldForCode("invalid_" + suffix)
    ensures FieldForCode("incomplete_" + suffix)
         == if suffix in {"number", "cvc", "expiry"} then Some("card_" + suffix) else None
  {
    var incomplete, invalid := "incomplete_" + suffix, "invalid_" + suffix;
    assert incomplete[2] == 'c' && invalid[2] == 'v';
    assert "incomplete_number" == "incomplete_" + "number" && "invalid_number" == "invalid_" + "number";
    assert "incomplete_cvc" == "incomplete_" + "cvc" && "invalid_cvc" == "invalid_" + "cvc";
    assert "incomplete_expiry" == "incomplete_" + "expiry" && "invalid_expiry" == "invalid_" + "expiry";
    PrefixedCode("incomplete_", suffix, "number");
    PrefixedCode("incomplete_", suffix, "cvc");
    PrefixedCode("incomplete_", suffix, "expiry");
    PrefixedCode("invalid_", suffix, "number");
    PrefixedCode("invalid_", suffix, "cvc");
    PrefixedCode("invalid_", suffix, "expiry");
    assert "card_number" == "card_" + "number" && "card_cvc" == "card_" + "cvc" && "card_expiry" == "card_" + "expiry";
  }

  /** A code built from a prefix equals a given code only with the matching suffix. */
  lemma PrefixedCode(prefix: string, suffix: string, other: string)
    ensures prefix + suffix == prefix + other <==> suffix == other
  {
    if prefix + suffix == prefix + other {
      assert suffix == (prefix + suffix)[|prefix|..];
      assert other == (prefix + other)[|prefix|..];
    }
  }

  /**
   * The `StripeValidationError` constructor: keeps `code` and the field map;
   * its message is the array under the first field, or `code` when the map is
   * empty.
   */
  function NewStripeValidationError(code: Option<string>, messagesByField: MessagesByField): (e: ThrownError)
    ensures e.StripeValidationError? && e.code == code && e.messagesByField == messagesByField
    ensures messagesByField != [] ==> e.message == MessageList(messagesByField[0].messages)
    ensures messagesByField == [] ==> e.message == (if code.Some? then MessageText(code.value) else MessageUndefined)
  {
    var firstMessage :=
      if |messagesByField| > 0 then MessageList(messagesByField[0].messages)
      else if code.Some? then MessageText(code.value)
      else MessageUndefined;
    StripeValidationError(firstMessage, code, messagesByField)
  }

  /**
   * The `StripePaymentMethodError` constructor: keeps the original Stripe error
   * and copies its message.
   */
  function NewStripePaymentMethodError(stripeError: StripeError): (e: ThrownError)
    ensures e.StripePaymentMethodError? && e.stripeError == stripeError
    ensures e.message == MessageText(stripeError.message)
  {
    StripePaymentMethodError(MessageText(stripeError.message), stripeError)
  }

  /**
   * `createStripePaymentMethod`, given Stripe's reply to `createPaymentMethod`:
   * a validation error rejects with a `StripeValidationError`, any other error
   * with a plain error carrying Stripe's message, and success resolves with the
   * payment method.
   */
  function CreateStripePaymentMethod<P>(reply: Reply<P>): (r: Settled<P>)
    ensures reply.ReplyOk? ==> r == Resolved(reply.value)
    ensures reply.ReplyError? && reply.error.errorType == VALIDATION_ERROR ==>
      r.Rejected? && r.thrown.StripeValidationError? && r.thrown.code == reply.error.code
      && r.thrown.messagesByField == GetValidationErrorsFromStripeError(reply.error).GetOr([])
    ensures reply.ReplyError? && reply.error.errorType != VALIDATION_ERROR ==>
      r == Rejected(PlainError(MessageText(reply.error.message)))
  {
    match reply
    case ReplyOk(paymentMethod) => Resolved(paymentMethod)
    case ReplyError(error) =>
      if error.errorType == VALIDATION_ERROR then
        Rejected(NewStripeValidationError(error.code, GetValidationErrorsFromStripeError(error).GetOr([])))
      else
        Rejected(PlainError(MessageText(error.message)))
  }

  /**
   * `confirmStripePaymentIntent`, given Stripe's reply to `handleCardPayment`:
   * any error rejects with a `StripePaymentMethodError` wrapping it; success
   * resolves with the payment intent.
   */
  function ConfirmStripePaymentIntent<I>(reply: Reply<I>): (r: Settled<I>)
    ensures reply.ReplyOk? ==> r == Resolved(reply.value)
    ensures reply.ReplyError? ==>
      r.Rejected? && r.thrown.StripePaymentMethodError? && r.thrown.stripeError == reply.error
      && r.thrown.message == MessageText(reply.error.message)
  {
    match reply
    case ReplyOk(paymentIntent) => Resolved(paymentIntent)
    case ReplyError(error) => Rejected(NewStripePaymentMethodError(error))
  }

  /**
   * A validation error with a code naming a card field rejects with that
   * field's one message as the error message; any other validation code
   * rejects with an empty field map and the code itself as the message.
   */
  lemma ValidationRejection<P>(reply: Reply<P>)
    requires reply.ReplyError? && reply.error.errorType == VALIDATION_ERROR
    ensures var r := CreateStripePaymentMethod(reply);
      r.Rejected? && r.thrown.StripeValidationError? &&
      if Truthy(reply.error.code) && IsFieldCode(reply.error.code.value) then
        |r.thrown.messagesByField| == 1
        && r.thrown.messagesByField[0].field == FieldForCode(reply.error.code.value).value
        && r.thrown.message == MessageList([reply.error.message])
      else
        r.thrown.messagesByField == []
        && r.thrown.message == (if reply.error.code.Some? then MessageText(reply.error.code.value) else MessageUndefined)
  {
  }

  /**
   * A tokenization failure and a confirmation failure are never the same kind
   * of error, so the form can tell which step failed.
   */
  lemma TokenizationAndConfirmationErrorsDiffer<P, I>(created: Reply<P>, confirmed: Reply<I>)
    requires CreateStripePaymentMethod(created).Rejected?
    requires ConfirmStripePaymentIntent(confirmed).Rejected?
    ensures !CreateStripePaymentMethod(created).thrown.StripePaymentMethodError?
    ensures ConfirmStripePaymentIntent(confirmed).thrown.StripePaymentMethodError?
  {
  }

  /**
   * A `forceReload` handler: the default no-op, or the provider's
   * `() => setAttempt( currentAttempt + 1 )`, which captured the attempt
   * counter of the render that created it.
   */
  datatype ReloadHandler = NoOpReload | ReloadConfiguration(captured: nat)

  /** The value `useStripe` returns. */
  datatype StripeData<S, C, E> = StripeData(
    stripe: Option<S>,
    stripeConfiguration: Option<C>,
    isStripeLoading: bool,
    stripeLoadingError: Option<E>,
    forceReload: ReloadHandler)

  /** The `forceReload` handler a render of the provider creates. */
  function ProviderForceReload(currentAttempt: nat): (handler: ReloadHandler)
    ensures handler.ReloadConfiguration? && handler.captured == currentAttempt
  {
    ReloadConfiguration(currentAttempt)
  }

  /** The configuration attempt after calling a `forceReload` handler. */
  function ApplyReload(handler: ReloadHandler, attempt: nat): (next: nat)
    ensures handler.NoOpReload? ==> next == attempt
    ensures handler.ReloadConfiguration? ==> next == handler.captured + 1
  {
    match handler
    case NoOpReload => attempt
    case ReloadConfiguration(captured) => captured + 1
  }

  /**
   * The handler of the current render advances the attempt by exactly one; a
   * handler called again before the next render sets the same attempt again,
   * so repeated calls do not advance the counter further.
   */
  lemma ProviderReloadAdvancesOnce(currentAttempt: nat, attempt: nat)
    ensures ApplyReload(ProviderForceReload(currentAttempt), currentAttempt) == currentAttempt + 1
    ensures var h := ProviderForceReload(currentAttempt);
      ApplyReload(h, ApplyReload(h, attempt)) == ApplyReload(h, attempt)
  {
  }

  /**
   * `useStripe`: the provider's data when a provider is mounted, and otherwise
   * an idle default with nothing loaded and a no-op `forceReload`.
   */
  function UseStripe<S, C, E>(context: Option<StripeData<S, C, E>>): (d: StripeData<S, C, E>)
    ensures context.Some? ==> d == context.value
    ensures context.None? ==>
      d.stripe.None? && d.stripeConfiguration.None? && !d.isStripeLoading
      && d.stripeLoadingError.None? && d.forceReload == NoOpReload
  {
    match context
    case Some(data) => data
    case None => StripeData(None, None, false, None, NoOpReload)
  }

  /** Without a provider, `forceReload` never changes the attempt counter. */
  lemma DefaultReloadIsNoOp<S, C, E>(attempt: nat)
    ensures ApplyReload(UseStripe<S, C, E>(None).forceReload, attempt) == attempt
  {
  }
}
