/**
 * The order review step of the checkout: line items split by type into plan,
 * domain, tax and miscellaneous buckets, shown in full or collapsed.
 */
module OrderReview {
  import opened Sequences
  import opened CartTranslation

  predicate IsPlan(item: LineItem) { item.itemType == "plan" }
  predicate IsDomain(item: LineItem) { item.itemType == "domain" }
  predicate IsTax(item: LineItem) { item.itemType == "tax" }

  /** `! [ 'plan', 'domain', 'tax' ].includes( item.type )` */
  predicate IsMisc(item: LineItem) { item.itemType !in ["plan", "domain", "tax"] }

  /** The four filtered lists the review components build from `items`. */
  datatype Buckets = Buckets(plans: seq<LineItem>, domains: seq<LineItem>, taxes: seq<LineItem>, misc: seq<LineItem>)

  function BucketItems(items: seq<LineItem>): (b: Buckets)
    ensures forall i :: 0 <= i < |b.plans| ==> b.plans[i].itemType == "plan"
    ensures forall i :: 0 <= i < |b.domains| ==> b.domains[i].itemType == "domain"
    ensures forall i :: 0 <= i < |b.taxes| ==> b.taxes[i].itemType == "tax"
    ensures forall i :: 0 <= i < |b.misc| ==> b.misc[i].itemType !in {"plan", "domain", "tax"}
  {
    Buckets(Filter(items, IsPlan), Filter(items, IsDomain), Filter(items, IsTax), Filter(items, IsMisc))
  }

  /** The three sections of the expanded review, each a list of rows in display order. */
  datatype ReviewSections = ReviewSections(
    plansAndMisc: seq<LineItem>, domains: seq<LineItem>, taxes: seq<LineItem>)

  /**
   * `OrderReview`: plans then the other line items, then domains, then taxes
   * (the total follows the taxes). Every line item is shown exactly once.
   */
  function ExpandedReview(items: seq<LineItem>): (r: ReviewSections)
    ensures var b := BucketItems(items);
      r.plansAndMisc == b.plans + b.misc && r.domains == b.domains && r.taxes == b.taxes
    ensures multiset(r.plansAndMisc + r.domains + r.taxes) == multiset(items)
    ensures |r.plansAndMisc| + |r.domains| + |r.taxes| == |items|
  {
    var b := BucketItems(items);
    BucketsPartition(items);
    assert multiset(b.plans + b.misc + b.domains + b.taxes) == multiset(b.plans + b.domains + b.taxes + b.misc);
    ReviewSections(b.plans + b.misc, b.domains, b.taxes)
  }

  /** `OrderReviewCollapsed`: plans, the other line items, then domains. */
  function CollapsedReview(items: seq<LineItem>): (rows: seq<LineItem>)
    ensures var b := BucketItems(items); rows == b.plans + b.misc + b.domains
    ensures forall i :: 0 <= i < |rows| ==> !IsTax(rows[i])
  {
    var b := BucketItems(items);
    b.plans + b.misc + b.domains
  }

  /** Every item satisfies exactly one of the four bucket predicates. */
  lemma ExactlyOneBucket(x: LineItem)
    ensures IsPlan(x) || IsDomain(x) || IsTax(x) || IsMisc(x)
    ensures !(IsPlan(x) && IsDomain(x)) && !(IsPlan(x) && IsTax(x)) && !(IsDomain(x) && IsTax(x))
    ensures IsMisc(x) ==> !IsPlan(x) && !IsDomain(x) && !IsTax(x)
  {
  }

  /**
   * The buckets partition the items: together they hold every item as often as
   * `items` does, so their sizes add up to `|items|`.
   */
  lemma BucketsPartition(items: seq<LineItem>)
    ensures var b := BucketItems(items);
      multiset(b.plans + b.domains + b.taxes + b.misc) == multiset(items)
      && |b.plans| + |b.domains| + |b.taxes| + |b.misc| == |items|
  {
    var b := BucketItems(items);
    var all := b.plans + b.domains + b.taxes + b.misc;
    assert multiset(all) == multiset(b.plans) + multiset(b.domains) + multiset(b.taxes) + multiset(b.misc);
    forall x ensures multiset(all)[x] == multiset(items)[x] {
      FilterMultiplicity(items, IsPlan, x);
      FilterMultiplicity(items, IsDomain, x);
      FilterMultiplicity(items, IsTax, x);
      FilterMultiplicity(items, IsMisc, x);
      ExactlyOneBucket(x);
    }
    assert multiset(all) == multiset(items);
    assert |multiset(all)| == |all|;
  }

  /** An item sits in a bucket exactly when its type selects that bucket. */
  lemma BucketMembership(items: seq<LineItem>, x: LineItem)
    requires x in items
    ensures var b := BucketItems(items);
      (x in b.plans <==> IsPlan(x)) && (x in b.domains <==> IsDomain(x))
      && (x in b.taxes <==> IsTax(x)) && (x in b.misc <==> IsMisc(x))
  {
    FilterMembership(items, IsPlan, x);
    FilterMembership(items, IsDomain, x);
    FilterMembership(items, IsTax, x);
    FilterMembership(items, IsMisc, x);
  }

  /** Each bucket keeps the relative order of `items`. */
  lemma BucketsKeepOrder(items: seq<LineItem>)
    ensures var b := BucketItems(items);
      SubsequenceOf(b.plans, items) && SubsequenceOf(b.domains, items)
      && SubsequenceOf(b.taxes, items) && SubsequenceOf(b.misc, items)
  {
    FilterIsSubsequence(items, IsPlan);
    FilterIsSubsequence(items, IsDomain);
    FilterIsSubsequence(items, IsTax);
    FilterIsSubsequence(items, IsMisc);
  }

  /**
   * The collapsed review shows every item except the tax lines, each as often
   * as it occurs in `items`.
   */
  lemma CollapsedIsAllButTax(items: seq<LineItem>)
    ensures multiset(CollapsedReview(items)) + multiset(BucketItems(items).taxes) == multiset(items)
  {
    var b := BucketItems(items);
    BucketsPartition(items);
    assert multiset(b.plans + b.domains + b.taxes + b.misc)
        == multiset(b.plans + b.misc + b.domains) + multiset(b.taxes);
  }

  /**
   * Of a translated cart, the review's tax section holds the tax lines of the
   * products (those whose slug is `tax`) followed by the synthetic tax line.
   */
  lemma TranslatedCartTaxSection(cart: ServerCart)
    ensures ExpandedReview(TranslateCart(cart).items).taxes
         == Filter(MapSeq(cart.products, TranslateCartItem), IsTax) + [TaxLineItem(cart)]
  {
    var products := MapSeq(cart.products, TranslateCartItem);
    assert TranslateCart(cart).items == products + [TaxLineItem(cart)];
    FilterAppend(products, [TaxLineItem(cart)], IsTax);
  }
}
