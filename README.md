# WordPress.com composite checkout: cart, payment errors and helpers, in Dafny

This project models the data and error-handling core of the WordPress.com
composite checkout, along with a few small client helpers. Each piece is
stated as a Dafny definition, and properties of those definitions are proved:

- **Cart translation** (`translate_cart.dfy`, module `CartTranslation`).
  The backend cart record becomes the checkout's line-item cart: one line
  item per product, then a synthetic `Tax` line, the total, and the allowed
  payment methods. The allowed methods are the backend class names mapped to
  checkout slugs, with unknown names dropped.
- **Stripe error classification** (`stripe.dfy`, module `StripeErrors`).
  Stripe's reply to tokenization or confirmation becomes a resolved value or a
  thrown error: a `StripeValidationError` with per-field messages, a plain
  `Error`, or a `StripePaymentMethodError`. The file also covers the default
  value of `useStripe` and the `forceReload` counter.
- **Registered payment methods** (`registered_methods.dfy`, module
  `PaymentMethodRegistry`). The four methods registered at start-up, in order,
  held by a `Registry` class whose method list the registration methods append
  to. It also covers the accessible label of each method in the selector.
- **Order review** (`order_review.dfy`, module `OrderReview`). The plan,
  domain, tax and miscellaneous buckets of the line items, in the expanded and
  in the collapsed review.
- **Stored card** (`stored_card.dfy`, module `StoredCard`). The card brand's
  display name, the `Brand ****1234` summary, the brand CSS flags and the
  expiry line.
- **Login URL** (`login_path.dfy`, module `LoginPath`). The builder that picks
  the login page, localises it and appends query arguments. It is an
  imperative method proved against a rule-table specification.
- **Two reducers** (`nps_survey_notice.dfy`, `next_appointment.dfy`). The NPS
  survey dialog flag and the concierge next appointment, each with a replay of
  an action sequence and a reference definition of the state it ends in.

`wrappers.dfy` holds `Option` and `Result`. `sequences.dfy` holds
`Array.prototype.filter` and the order-preserving subsequence relation, with
the lemmas about them that the other modules use.

Conventions:

- An optional string option or property that the code only tests for truthiness
  is `""` when absent. Where `undefined`, `null` and a value must be told
  apart, it is an `Option` or a dedicated datatype (`Sublabel`,
  `ErrorMessage`).
- `translate` and `localize` are the identity on the English text, with
  arguments substituted.
- The URL helpers (`config( 'login_url' )`, `addLocaleToPath`, `localizeUrl`,
  `addQueryArgs`) are uninterpreted. A URL is the term that records which of
  them were applied, in which order.

## Model

| member | source | states |
|---|---|---|
| CartTranslation.TranslatePaymentMethod | packages/composite-checkout/src/components/wpcom/translate-cart.js:107-117 | a class name has a slug exactly when it is one of the three known classes: the Stripe class gives `card`, the Ebanx class `ebanx` and the web-payment class `apple-pay` |
| CartTranslation.TranslatePaymentMethods | packages/composite-checkout/src/components/wpcom/translate-cart.js:54-56 | the allowed slugs are no more than the class names and all among the three known slugs |
| CartTranslation.AllowedMethodsAreFilteredKnownClasses | packages/composite-checkout/src/components/wpcom/translate-cart.js:54-56 | the allowed methods are exactly the known class names, in their original order, each translated: unknown names are dropped and nothing else is |
| CartTranslation.AllowedMethodMembership | packages/composite-checkout/src/components/wpcom/translate-cart.js:54-56 | a slug is allowed if and only if some allowed class name translates to it |
| CartTranslation.TranslateCartItem | packages/composite-checkout/src/components/wpcom/translate-cart.js:76-99 | a line item keeps the product's name, slug and amount; it has a string sublabel (the `meta`) exactly for domain registrations and a `null` sublabel otherwise |
| CartTranslation.TaxLineItem | packages/composite-checkout/src/components/wpcom/translate-cart.js:37-45 | the tax line is typed `tax`, labelled `Tax`, has no sublabel, and carries the cart's tax amount in the cart's currency |
| CartTranslation.TranslateCart | packages/composite-checkout/src/components/wpcom/translate-cart.js:26-58 | one line item per product in product order, then the tax line last; the total is the cart's cost; the allowed methods are the translated class names |
| CartTranslation.TaxLineCount | packages/composite-checkout/src/components/wpcom/translate-cart.js:37-48 | the translated cart holds exactly one more `tax` line than the products with slug `tax`: exactly one when there are none, whatever the tax amount |
| CartTranslation.UniformCurrencyIff | packages/composite-checkout/src/components/wpcom/translate-cart.js:41-48 | every line item has the cart's currency if and only if every product does: the translation does not reconcile currencies |
| StripeErrors.FieldForCode | packages/composite-checkout/src/lib/stripe.js:128-145 | a code names a field exactly when it is one of the six `incomplete_`/`invalid_` codes, and the field is `card_number`, `card_cvc` or `card_expiry` |
| StripeErrors.GetValidationErrorsFromStripeError | packages/composite-checkout/src/lib/stripe.js:124-146 | a field map exists exactly for a validation error whose code is truthy and names a field; it has one entry, for that field, holding the error's message alone |
| StripeErrors.IncompleteAndInvalidAgree | packages/composite-checkout/src/lib/stripe.js:128-145 | for every suffix, the `incomplete_` and `invalid_` codes name the same field: `card_` plus the suffix for `number`, `cvc` and `expiry`, and none otherwise |
| StripeErrors.NewStripeValidationError | packages/composite-checkout/src/lib/stripe.js:26-32 | the error keeps its code and field map; its message is the first field's message list, or the code when the map is empty |
| StripeErrors.NewStripePaymentMethodError | packages/composite-checkout/src/lib/stripe.js:43-46 | the error keeps the original Stripe error and copies its message |
| StripeErrors.CreateStripePaymentMethod | packages/composite-checkout/src/lib/stripe.js:70-85 | success resolves with the payment method; a validation error rejects with a `StripeValidationError` carrying the code and the field map (empty when none); any other error rejects with a plain error carrying Stripe's message |
| StripeErrors.ConfirmStripePaymentIntent | packages/composite-checkout/src/lib/stripe.js:99-114 | success resolves with the payment intent; any error rejects with a `StripePaymentMethodError` wrapping it and carrying its message |
| StripeErrors.ValidationRejection | packages/composite-checkout/src/lib/stripe.js:74-81 | a field-naming validation code rejects with that field's one-message list as the message; any other validation code rejects with an empty map and the code itself as the message |
| StripeErrors.TokenizationAndConfirmationErrorsDiffer | packages/composite-checkout/src/lib/stripe.js:77-82 | a tokenization failure is never a `StripePaymentMethodError`, and a confirmation failure always is |
| StripeErrors.ProviderForceReload | packages/composite-checkout/src/lib/stripe.js:228 | the handler a provider render creates captures that render's attempt counter |
| StripeErrors.ApplyReload | packages/composite-checkout/src/lib/stripe.js:228 | the provider's `forceReload` sets the attempt to its captured attempt plus one; the default one leaves the attempt unchanged |
| StripeErrors.ProviderReloadAdvancesOnce | packages/composite-checkout/src/lib/stripe.js:223-228 | the current render's handler advances the attempt by exactly one, and calling the same handler again does not advance it further |
| StripeErrors.UseStripe | packages/composite-checkout/src/lib/stripe.js:289-300 | with a provider, its data; without one, nothing loaded, not loading, no error and a no-op `forceReload` |
| StripeErrors.DefaultReloadIsNoOp | packages/composite-checkout/src/lib/stripe.js:292-298 | without a provider, calling `forceReload` never changes the attempt counter |
| PaymentMethodRegistry.RegisteredMethods | packages/composite-checkout/src/lib/payment-methods/registered-methods.js:21-54 | exactly four methods are registered |
| PaymentMethodRegistry.Registry.Register | packages/composite-checkout/src/lib/payment-methods/registered-methods.js:22-28 | registering appends the method to the registry's list and changes nothing else |
| PaymentMethodRegistry.Registry.LoadPaymentMethods | packages/composite-checkout/src/lib/payment-methods/registered-methods.js:21-54 | loading appends the four methods to the list, in registration order |
| PaymentMethodRegistry.RegistrationOrder | packages/composite-checkout/src/lib/payment-methods/registered-methods.js:22-53 | the registered ids are `apple-pay`, `card`, `stripe-card`, `paypal` in that order, and no id repeats |
| PaymentMethodRegistry.RegisteredComponents | packages/composite-checkout/src/lib/payment-methods/registered-methods.js:21-54 | Apple Pay and PayPal carry their own label and an empty payment-method component; the two card methods share the credit-card label, `card` shows the card fields while active and `stripe-card` the Stripe fields; each method has its own submit button; only PayPal uses the Apple Pay billing form, the others `BillingFields` |
| PaymentMethodRegistry.OnlyStripeCardHasWrapper | packages/composite-checkout/src/lib/payment-methods/registered-methods.js:38-45 | exactly `stripe-card` has a checkout wrapper, and it is the Stripe hook provider |
| PaymentMethodRegistry.GetAriaLabelForPaymentMethodSelector | packages/composite-checkout/src/lib/payment-methods/registered-methods.js:56-68 | a label exists exactly for the four registered slugs: `Check out with Apple Pay`, `Check out with PayPal`, and the shared credit-card label for the two card slugs; any other slug throws `Unrecognized payment method slug '<slug>'` |
| PaymentMethodRegistry.LabelsOfRegisteredMethods | packages/composite-checkout/src/lib/payment-methods/registered-methods.js:56-68 | every registered method has a label, and two registered methods share a label exactly when both are card methods |
| PaymentMethodRegistry.TranslatedSlugsAndLabels | packages/composite-checkout/src/lib/payment-methods/registered-methods.js:56-68 | of the slugs the cart translation produces, `card` and `apple-pay` are registered and labelled, and `ebanx` is neither (the label function throws on it) |
| OrderReview.BucketItems | packages/composite-checkout/src/components/wpcom/order-review.js:20-23 | every item in the plan, domain and tax buckets has that type, and every miscellaneous item has none of the three |
| OrderReview.ExpandedReview | packages/composite-checkout/src/components/wpcom/order-review.js:18-49 | the expanded review shows plans then miscellaneous items, then domains, then taxes, and every line item appears in it exactly as often as in the item list |
| OrderReview.CollapsedReview | packages/composite-checkout/src/components/wpcom/order-review.js:51-65 | the collapsed review shows the plans, then the miscellaneous items, then the domains, each in item order, and no tax line |
| OrderReview.ExactlyOneBucket | packages/composite-checkout/src/components/wpcom/order-review.js:20-23 | every line item satisfies exactly one of the four bucket filters |
| OrderReview.BucketsPartition | packages/composite-checkout/src/components/wpcom/order-review.js:20-23 | the four buckets together hold every item as often as the item list does, so their sizes add up to the number of items |
| OrderReview.BucketMembership | packages/composite-checkout/src/components/wpcom/order-review.js:20-23 | an item is in a bucket if and only if its type selects that bucket |
| OrderReview.BucketsKeepOrder | packages/composite-checkout/src/components/wpcom/order-review.js:20-23 | each bucket keeps the relative order of the item list |
| OrderReview.CollapsedIsAllButTax | packages/composite-checkout/src/components/wpcom/order-review.js:53-61 | the collapsed review holds every item except the tax lines, each as often as in the item list |
| OrderReview.TranslatedCartTaxSection | packages/composite-checkout/src/components/wpcom/order-review.js:22 | for a translated cart, the tax section holds the products with slug `tax` followed by the synthetic tax line |
| StoredCard.Lower | client/components/credit-card/stored-card.tsx:24 | lower-casing keeps the length, leaves no upper-case ASCII letter, and changes a character only by turning an upper-case letter into its lower-case form |
| StoredCard.LowerIdempotent | client/components/credit-card/stored-card.tsx:24 | lower-casing twice is lower-casing once |
| StoredCard.DisplayType | client/components/credit-card/stored-card.tsx:23-56 | an unknown card type is shown as given; the display name is `American Express` exactly for the two lower-cased spellings `amex` and `american express`; `diners`, `discover`, `jcb`, `mastercard`, `unionpay` and `visa` show as `Diners Club`, `Discover`, `JCB`, `Mastercard`, `UnionPay` and `VISA` |
| StoredCard.CreditCardSummary | client/components/credit-card/stored-card.tsx:18-65 | without last digits the summary is the display name; with them, it is the display name, ` ****`, then the digits |
| StoredCard.BrandMatchingIgnoresCase | client/components/credit-card/stored-card.tsx:24-56 | known card types that are equal up to case have the same display name and the same summary |
| StoredCard.KnownDisplayNamesDistinct | client/components/credit-card/stored-card.tsx:25-52 | two known brands share a display name if and only if they are the same brand or both spell American Express |
| StoredCard.CardClasses | client/components/credit-card/stored-card.tsx:81-90 | at most one brand flag is set; `is-amex` is set exactly for the two American Express spellings and each other `is-<brand>` flag exactly for its own lower-cased brand name |
| StoredCard.ClassesAgreeWithDisplayType | client/components/credit-card/stored-card.tsx:81-90 | exactly one brand flag is set if and only if the lower-cased card type is one of the brands the summary's `switch` recognises, and the flags ignore case |
| StoredCard.ExpirationText | client/components/credit-card/stored-card.tsx:79 | there is an expiry line exactly when the expiry is present and non-empty and its formatted date is non-empty; the line is `Expires ` followed by that date |
| LoginPath.Login | client/lib/paths/login/index.js:11-79 | the built URL is `LoginUrl`, the rule-table definition: base page, locale step, then the selected query arguments in table order |
| LoginPath.LoginPage | client/lib/paths/login/index.js:26-52 | the page is the configured login URL unless the native login is enabled, else `/log-in` plus the first applicable suffix; it is then localised unless the locale is absent or `en` |
| LoginPath.FirstMatchIsFirstApplicable | client/lib/paths/login/index.js:31-43 | in a priority chain, a rule decides the result when it applies and no earlier rule does |
| LoginPath.SuffixTableLemma | client/lib/paths/login/index.js:31-43 | the suffix table yields exactly the suffix of the `if`/`else if` chain, case by case |
| LoginPath.ApplyRulesReadBack | client/lib/paths/login/index.js:54-76 | appending query arguments by rules leaves the page alone and adds exactly the selected arguments, in rule order |
| LoginPath.LoginUrlReadBack | client/lib/paths/login/index.js:11-79 | a login URL reads back as its localised base page followed by exactly the selected query arguments |
| LoginPath.SelectedMembership | client/lib/paths/login/index.js:54-76 | an argument is selected if and only if some applicable rule carries it |
| LoginPath.SelectedKeysDistinct | client/lib/paths/login/index.js:54-76 | rules with distinct keys select arguments with distinct keys |
| LoginPath.SelectedAt | client/lib/paths/login/index.js:54-76 | with distinct keys, a rule's argument is selected exactly when the rule applies |
| LoginPath.QueryArgKeysDistinct | client/lib/paths/login/index.js:54-76 | the six query-argument keys are pairwise distinct |
| LoginPath.QueryArgPresence | client/lib/paths/login/index.js:54-76 | `site`, `redirect_to`, `email_address` and `wccom-from` appear exactly when given; `client_id` exactly when given and numeric; `from=woocommerce-setup-wizard` exactly for WooCommerce; no key appears twice |
| NpsSurveyNotice.IsNpsSurveyDialogShowing | client/state/ui/nps-survey-notice/reducer.js:10-19 | a show action with `isShowing` sets the flag to it; any other action, or one without `isShowing`, keeps the state, which starts as `false` |
| NpsSurveyNotice.ReducerIdempotent | client/state/ui/nps-survey-notice/reducer.js:12-15 | applying the same action twice is applying it once |
| NpsSurveyNotice.Replay | client/state/ui/nps-survey-notice/reducer.js:10-19 | the reducer folded over a run of actions has a state exactly when the run is non-empty |
| NpsSurveyNotice.LastShown | client/state/ui/nps-survey-notice/reducer.js:12-15 | there is no last shown value exactly when no action is a show action with `isShowing` |
| NpsSurveyNotice.ReplayIsLastShown | client/state/ui/nps-survey-notice/reducer.js:10-19 | after any non-empty run of actions the flag is the `isShowing` of the last show action that has one, and `false` when there is none |
| NpsSurveyNotice.IgnoredActionsKeepState | client/state/ui/nps-survey-notice/reducer.js:14-18 | other action types, and show actions without `isShowing`, leave the replayed state unchanged |
| NextAppointment.NextAppointmentReducer | client/state/concierge/next-appointment/reducer.js:9-18 | a request resets the state to `null`; an update sets it to `initial.nextAppointment`, or throws when `initial` is undefined; any other action keeps it |
| NextAppointment.HandledActionsForgetState | client/state/concierge/next-appointment/reducer.js:11-14 | the result of a request or an update does not depend on the prior state |
| NextAppointment.ReducerIdempotent | client/state/concierge/next-appointment/reducer.js:11-14 | applying the same action twice is applying it once |
| NextAppointment.LastSet | client/state/concierge/next-appointment/reducer.js:9-18 | with no request or update in the run, the value is `null` |
| NextAppointment.Replay | client/state/concierge/next-appointment/reducer.js:9-18 | the reducer folded over a run of actions starts from `null` on the empty run, and fails only when some action in the run is an update without `initial` |
| NextAppointment.ReplayIsLastSet | client/state/concierge/next-appointment/reducer.js:9-18 | a run with no throwing update ends in the value set by its last request or update (`null` when there is none); a run with one fails |

## Left out

- The React components, hooks and rendering are not modelled: `StripeHookProvider`, `useStripeJs`, `useStripeConfiguration`, `OrderReview` markup, `StoredCard` markup. Only the data each one computes is modelled.
- Stripe.js itself, script loading and the configuration fetch are I/O, so they are not modelled. `CreateStripePaymentMethod` and `ConfirmStripePaymentIntent` take Stripe's reply as a parameter.
- StripeErrors.ApplyReload: it models the effect of `forceReload` on the attempt counter only. The re-fetch that the counter triggers is an effect and is not modelled. A handler carries the attempt of the render that created it, so the model covers stale handlers.
- `registerPaymentMethod`'s module (`lib/payment-methods`) is not part of this model. `Registry.Register` appends without any duplicate check.
- `MessagesByField` is a list of entries in `Object.keys` order. Which key `Object.keys` returns first is JavaScript's insertion order; the maps built here have one key, so the order does not matter.
- StoredCard.Lower: `toLocaleLowerCase` is modelled as ASCII lower-casing. Locale-specific case mapping is not modelled.
- StoredCard.ExpirationText: the `moment` parse and `MM/YY` formatting is a parameter, `formatMonthYear`. A date that formats to the empty string gives no line, as the falsy `expirationDate` does.
- `translate` and `localize` are the identity, so translated display names and labels are the English texts.
- LoginPath.Login: the `isEnabled( 'login/wp-login' )` flag and the global `isNaN` are parameters. Each of the six `if ( option ) url = addQueryArgs( … )` statements is written as one conditional assignment. The specification function `LoginUrl` uses the same conditions and order.
- NpsSurveyNotice.IsNpsSurveyDialogShowing: `isShowing` is a boolean or undefined. Other JavaScript values, which the reducer would store as they are, are not modelled.
- NextAppointment.Replay: the fold stops at the first action that throws. A Redux store would keep its previous state and go on dispatching; that recovery is not modelled.
- NextAppointment.NextAppointmentReducer: `null` and `undefined` next appointments are both `None`. Reading `action.initial.nextAppointment` without `initial` throws a `TypeError`, which is modelled as an `Err`.
- `withoutPersistence` and `combineReducers` are wrappers from modules outside this model, and are not modelled.

## Notes on the code

Two behaviours of the code are worth noting:

- A validation error whose code names no card field still throws a `StripeValidationError`, with an empty field map and the code as its message (`StripeErrors.ValidationRejection`).
- The translated cart always appends one synthetic tax line, so it holds exactly one tax line only when no product has the slug `tax`. In general it holds one more than the number of such products (`CartTranslation.TaxLineCount`).
