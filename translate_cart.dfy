/**
 * Translation of the cart record returned by the WordPress.com cart endpoint
 * into the line-item cart consumed by the composite checkout.
 */
module CartTranslation {
  import opened Wrappers
  import opened Sequences

  /** One product of the backend cart (the fields the translation reads). */
  datatype ServerProduct = ServerProduct(
    productName: string,
    productSlug: string,
    currency: string,
    itemSubtotalInteger: int,
    itemSubtotalDisplay: string,
    isDomainRegistration: bool,
    meta: string)

  /** The backend cart record (the fields the translation reads). */
  datatype ServerCart = ServerCart(
    products: seq<ServerProduct>,
    totalTaxInteger: int,
    totalTaxDisplay: string,
    totalCostInteger: int,
    totalCostDisplay: string,
    currency: string,
    allowedPaymentMethods: seq<string>)

  /** An amount: currency code, value in the smallest currency unit, and display text. */
  datatype Amount = Amount(currency: string, value: int, displayValue: string)

  /**
   * The `sublabel` of a line item: the key is absent (the tax line has none),
   * it is `null`, or it holds a string.
   */
  datatype Sublabel = NoSublabel | NullSublabel | Sublabel(text: string)

  /** A checkout line item; `labelText` is its `label` and `itemType` its `type`. */
  datatype LineItem = LineItem(labelText: string, sublabel: Sublabel, itemType: string, amount: Amount)

  /** The cart in the shape the checkout component takes. */
  datatype CheckoutCart = CheckoutCart(items: seq<LineItem>, total: Amount, allowedPaymentMethods: seq<string>)

  const STRIPE_CLASS := "WPCOM_Billing_Stripe_Payment_Method"
  const EBANX_CLASS := "WPCOM_Billing_Ebanx"
  const WEB_PAYMENT_CLASS := "WPCOM_Billing_Web_Payment"

  /** The backend payment-method class names that have a checkout slug. */
  predicate IsKnownPaymentClass(name: string) {
    name == STRIPE_CLASS || name == EBANX_CLASS || name == WEB_PAYMENT_CLASS
  }

  /**
   * The checkout slug of a backend payment-method class name; `None` stands for
   * the `undefined` the switch falls through to.
   */
  function TranslatePaymentMethod(name: string): (slug: Option<string>)
    ensures slug.Some? <==> IsKnownPaymentClass(name)
    ensures slug.Some? ==> slug.value in {"card", "ebanx", "apple-pay"}
    ensures name == STRIPE_CLASS ==> slug == Some("card")
    ensures name == EBANX_CLASS ==> slug == Some("ebanx")
    ensures name == WEB_PAYMENT_CLASS ==> slug == Some("apple-pay")
  {
    if name == STRIPE_CLASS then Some("card")
    else if name == EBANX_CLASS then Some("ebanx")
    else if name == WEB_PAYMENT_CLASS then Some("apple-pay")
    else None
  }

  /** Truthiness of a mapped slug, as `filter( Boolean )` tests it. */
  predicate Truthy(slug: Option<string>) {
    slug.Some? && slug.value != ""
  }

  /** `allowed_payment_methods.map( translate ).filter( Boolean )`. */
  function TranslatePaymentMethods(names: seq<string>): (slugs: seq<string>)
    ensures |slugs| <= |names|
    ensures forall s :: s in slugs ==> s in {"card", "ebanx", "apple-pay"}
  {
    if names == [] then []
    else
      var head := TranslatePaymentMethod(names[0]);
      (if Truthy(head) then [head.value] else []) + TranslatePaymentMethods(names[1..])
  }

  /** The slug of a class name already known to have one. */
  function KnownSlug(name: string): string
    requires IsKnownPaymentClass(name)
  {
    TranslatePaymentMethod(name).value
  }

  /** Apply `f` to every element, keeping the order. */
  function MapSeq<A, B>(s: seq<A>, f: A --> B): (r: seq<B>)
    requires forall i :: 0 <= i < |s| ==> f.requires(s[i])
    ensures |r| == |s|
    ensures forall i :: 0 <= i < |s| ==> r[i] == f(s[i])
  {
    if s == [] then [] else [f(s[0])] + MapSeq(s[1..], f)
  }

  /** Translate one backend product into a line item. */
  function TranslateCartItem(p: ServerProduct): (item: LineItem)
    ensures item.labelText == p.productName && item.itemType == p.productSlug
    ensures item.amount == Amount(p.currency, p.itemSubtotalInteger, p.itemSubtotalDisplay)
    ensures item.sublabel.Sublabel? <==> p.isDomainRegistration
    ensures item.sublabel.Sublabel? ==> item.sublabel.text == p.meta
    ensures !p.isDomainRegistration ==> item.sublabel == NullSublabel
  {
    var sublabel := if p.isDomainRegistration then Sublabel(p.meta) else NullSublabel;
    LineItem(p.productName, sublabel, p.productSlug,
             Amount(p.currency, p.itemSubtotalInteger, p.itemSubtotalDisplay))
  }

  /** The synthetic tax line appended to every translated cart. */
  function TaxLineItem(cart: ServerCart): (item: LineItem)
    ensures item.itemType == "tax" && item.labelText == "Tax" && item.sublabel == NoSublabel
    ensures item.amount == Amount(cart.currency, cart.totalTaxInteger, cart.totalTaxDisplay)
  {
    LineItem("Tax", NoSublabel, "tax", Amount(cart.currency, cart.totalTaxInteger, cart.totalTaxDisplay))
  }

  /** Translate the backend cart into the checkout cart. */
  function TranslateCart(cart: ServerCart): (r: CheckoutCart)
    ensures |r.items| == |cart.products| + 1
    ensures forall i :: 0 <= i < |cart.products| ==> r.items[i] == TranslateCartItem(cart.products[i])
    ensures r.items[|cart.products|] == TaxLineItem(cart)
    ensures r.total == Amount(cart.currency, cart.totalCostInteger, cart.totalCostDisplay)
    ensures r.allowedPaymentMethods == TranslatePaymentMethods(cart.allowedPaymentMethods)
  {
    CheckoutCart(
      MapSeq(cart.products, TranslateCartItem) + [TaxLineItem(cart)],
      Amount(cart.currency, cart.totalCostInteger, cart.totalCostDisplay),
      TranslatePaymentMethods(cart.allowedPaymentMethods))
  }

  /**
   * The allowed payment methods are exactly the known class names, kept in
   * their original order and translated one by one: unknown names are dropped
   * and nothing else is.
   */
  lemma {:induction false} AllowedMethodsAreFilteredKnownClasses(names: seq<string>)
    ensures TranslatePaymentMethods(names) == MapSeq(Filter(names, IsKnownPaymentClass), KnownSlug)
  {
    if names != [] {
      AllowedMethodsAreFilteredKnownClasses(names[1..]);
      var rest := Filter(names[1..], IsKnownPaymentClass);
      if IsKnownPaymentClass(names[0]) {
        assert Filter(names, IsKnownPaymentClass) == [names[0]] + rest;
        assert MapSeq([names[0]] + rest, KnownSlug) == [KnownSlug(names[0])] + MapSeq(rest, KnownSlug);
      } else {
        assert Filter(names, IsKnownPaymentClass) == rest;
      }
    }
  }

  /** A slug is allowed exactly when some allowed class name translates to it. */
  lemma {:induction false} AllowedMethodMembership(names: seq<string>, slug: string)
    ensures slug in TranslatePaymentMethods(names)
        <==> exists i :: 0 <= i < |names| && TranslatePaymentMethod(names[i]) == Some(slug)
  {
    if names != [] {
      AllowedMethodMembership(names[1..], slug);
      if TranslatePaymentMethod(names[0]) == Some(slug) {
        assert slug in TranslatePaymentMethods(names);
      }
      if exists i :: 0 <= i < |names| && TranslatePaymentMethod(names[i]) == Some(slug) {
        var i :| 0 <= i < |names| && TranslatePaymentMethod(names[i]) == Some(slug);
        if i > 0 {
          assert TranslatePaymentMethod(names[1..][i - 1]) == Some(slug);
        }
      }
      if slug in TranslatePaymentMethods(names) && TranslatePaymentMethod(names[0]) != Some(slug) {
        assert slug in TranslatePaymentMethods(names[1..]);
        var j :| 0 <= j < |names[1..]| && TranslatePaymentMethod(names[1..][j]) == Some(slug);
        assert TranslatePaymentMethod(names[j + 1]) == Some(slug);
      }
    }
  }

  /** The number of elements of `items` whose type is `t`. */
  function CountOfType(items: seq<LineItem>, t: string): nat {
    if items == [] then 0
    else (if items[0].itemType == t then 1 else 0) + CountOfType(items[1..], t)
  }

  /** The number of products whose slug is `t`. */
  function CountOfSlug(products: seq<ServerProduct>, t: string): nat {
    if products == [] then 0
    else (if products[0].productSlug == t then 1 else 0) + CountOfSlug(products[1..], t)
  }

  lemma {:induction false} CountOfTypeAppend(a: seq<LineItem>, b: seq<LineItem>, t: string)
    ensures CountOfType(a + b, t) == CountOfType(a, t) + CountOfType(b, t)
  {
    if a != [] {
      CountOfTypeAppend(a[1..], b, t);
      assert (a + b)[1..] == a[1..] + b;
    } else {
      assert a + b == b;
    }
  }

  lemma {:induction false} TranslatedCountOfType(products: seq<ServerProduct>, t: string)
    ensures CountOfType(MapSeq(products, TranslateCartItem), t) == CountOfSlug(products, t)
  {
    if products != [] {
      TranslatedCountOfType(products[1..], t);
      assert MapSeq(products, TranslateCartItem)[1..] == MapSeq(products[1..], TranslateCartItem);
    }
  }

  /**
   * The translated cart holds one tax line more than there are products with
   * the slug `tax`: exactly one when no product uses that slug, even when the
   * tax amount is zero.
   */
  lemma TaxLineCount(cart: ServerCart)
    ensures CountOfType(TranslateCart(cart).items, "tax") == CountOfSlug(cart.products, "tax") + 1
    ensures CountOfSlug(cart.products, "tax") == 0 ==> CountOfType(TranslateCart(cart).items, "tax") == 1
  {
    var prefix := MapSeq(cart.products, TranslateCartItem);
    assert TranslateCart(cart).items == prefix + [TaxLineItem(cart)];
    CountOfTypeAppend(prefix, [TaxLineItem(cart)], "tax");
    TranslatedCountOfType(cart.products, "tax");
    assert CountOfType([TaxLineItem(cart)], "tax") == 1;
  }

  /**
   * Every line item carries the cart's currency exactly when every product
   * does: the translation does not reconcile currencies.
   */
  lemma UniformCurrencyIff(cart: ServerCart)
    ensures (forall i :: 0 <= i < |TranslateCart(cart).items| ==> TranslateCart(cart).items[i].amount.currency == cart.currency)
        <==> (forall j :: 0 <= j < |cart.products| ==> cart.products[j].currency == cart.currency)
  {
    var items := TranslateCart(cart).items;
    if forall i :: 0 <= i < |items| ==> items[i].amount.currency == cart.currency {
      forall j | 0 <= j < |cart.products| ensures cart.products[j].currency == cart.currency {
        assert items[j] == TranslateCartItem(cart.products[j]);
      }
    }
  }
}
