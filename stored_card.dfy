/**
 * The stored credit card shown in account and checkout screens: the card
 * brand's display name, the one-line summary and the brand CSS classes.
 *
 * Lower-casing is ASCII lower-casing; `translate` returns its message with the
 * arguments substituted.
 */
module StoredCard {
  import opened Wrappers

  function LowerChar(c: char): char {
    if 'A' <= c <= 'Z' then (c as int + 32) as char else c
  }

  /** ASCII lower-casing, standing in for `toLocaleLowerCase`. */
  function Lower(s: string): (r: string)
    ensures |r| == |s|
    ensures forall i :: 0 <= i < |r| ==> !('A' <= r[i] <= 'Z')
    ensures forall i :: 0 <= i < |s| ==>
      r[i] == s[i] || ('A' <= s[i] <= 'Z' && r[i] as int == s[i] as int + 32)
  {
    seq(|s|, i requires 0 <= i < |s| => LowerChar(s[i]))
  }

  /** Lower-casing twice is lower-casing once. */
  lemma LowerIdempotent(s: string)
    ensures Lower(Lower(s)) == Lower(s)
  {
  }

  /** The lower-cased card types the summary and the classes recognise. */
  predicate IsKnownBrand(lowered: string) {
    lowered in {"american express", "amex", "diners", "discover", "jcb", "mastercard", "unionpay", "visa"}
  }

  /** The display name of a card type (the `switch` in `getCreditCardSummary`). */
  function DisplayType(cardType: string): (displayType: string)
    ensures !IsKnownBrand(Lower(cardType)) ==> displayType == cardType
    ensures Lower(cardType) in {"amex", "american express"} <==> displayType == "American Express"
    ensures Lower(cardType) == "diners" ==> displayType == "Diners Club"
    ensures Lower(cardType) == "discover" ==> displayType == "Discover"
    ensures Lower(cardType) == "jcb" ==> displayType == "JCB"
    ensures Lower(cardType) == "mastercard" ==> displayType == "Mastercard"
    ensures Lower(cardType) == "unionpay" ==> displayType == "UnionPay"
    ensures Lower(cardType) == "visa" ==> displayType == "VISA"
  {
    match Lower(cardType)
    case "american express" => "American Express"
    case "amex" => "American Express"
    case "diners" => "Diners Club"
    case "discover" => "Discover"
    case "jcb" => "JCB"
    case "mastercard" => "Mastercard"
    case "unionpay" => "UnionPay"
    case "visa" => "VISA"
    case _ => LowerOfAmericanExpress(); cardType
  }

  lemma LowerOfAmericanExpress()
    ensures Lower("American Express") == "american express"
  {
  }

  /**
   * `getCreditCardSummary`: the display type alone when there are no last
   * digits, otherwise the display type, a space, four asterisks and the digits.
   */
  function CreditCardSummary(cardType: string, digits: Option<string>): (summary: string)
    ensures digits.None? || digits.value == "" ==> summary == DisplayType(cardType)
    ensures digits.Some? && digits.value != "" ==>
      |summary| == |DisplayType(cardType)| + 5 + |digits.value|
      && summary[..|DisplayType(cardType)|] == DisplayType(cardType)
      && summary[|DisplayType(cardType)|..|DisplayType(cardType)| + 5] == " ****"
      && summary[|DisplayType(cardType)| + 5..] == digits.value
  {
    var displayType := DisplayType(cardType);
    if digits.None? || digits.value == "" then displayType
    else displayType + " ****" + digits.value
  }

  /**
   * Brand matching ignores case: card types equal up to case have the same
   * display name when the brand is known, and the same summary for the same
   * digits.
   */
  lemma BrandMatchingIgnoresCase(a: string, b: string, digits: Option<string>)
    requires Lower(a) == Lower(b) && IsKnownBrand(Lower(a))
    ensures DisplayType(a) == DisplayType(b)
    ensures CreditCardSummary(a, digits) == CreditCardSummary(b, digits)
  {
  }

  /**
   * Known brands have distinct display names, except the two spellings of
   * American Express, which share one.
   */
  lemma KnownDisplayNamesDistinct(a: string, b: string)
    requires IsKnownBrand(Lower(a)) && IsKnownBrand(Lower(b))
    ensures DisplayType(a) == DisplayType(b)
        <==> (Lower(a) == Lower(b) || (Lower(a) in {"amex", "american express"} && Lower(b) in {"amex", "american express"}))
  {
  }

  /** The brand flags passed to `classNames` for the card element. */
  datatype BrandClasses = BrandClasses(
    isAmex: bool, isDiners: bool, isDiscover: bool, isJcb: bool,
    isMastercard: bool, isUnionpay: bool, isVisa: bool)

  function CountTrue(c: BrandClasses): nat {
    (if c.isAmex then 1 else 0) + (if c.isDiners then 1 else 0) + (if c.isDiscover then 1 else 0)
    + (if c.isJcb then 1 else 0) + (if c.isMastercard then 1 else 0) + (if c.isUnionpay then 1 else 0)
    + (if c.isVisa then 1 else 0)
  }

  /** The brand flags of a card type. */
  function CardClasses(cardType: string): (c: BrandClasses)
    ensures CountTrue(c) <= 1
    ensures c.isAmex <==> Lower(cardType) in {"amex", "american express"}
    ensures c.isDiners <==> Lower(cardType) == "diners"
    ensures c.isDiscover <==> Lower(cardType) == "discover"
    ensures c.isJcb <==> Lower(cardType) == "jcb"
    ensures c.isMastercard <==> Lower(cardType) == "mastercard"
    ensures c.isUnionpay <==> Lower(cardType) == "unionpay"
    ensures c.isVisa <==> Lower(cardType) == "visa"
  {
    var t := Lower(cardType);
    BrandClasses(t == "amex" || t == "american express", t == "diners", t == "discover", t == "jcb",
                 t == "mastercard", t == "unionpay", t == "visa")
  }

  /**
   * The classes and the summary agree: exactly one brand flag is set when the
   * lower-cased card type is one the summary's `switch` recognises, none
   * otherwise, and the flags ignore case.
   */
  lemma ClassesAgreeWithDisplayType(cardType: string)
    ensures CountTrue(CardClasses(cardType)) == 1 <==> IsKnownBrand(Lower(cardType))
    ensures CardClasses(cardType) == CardClasses(Lower(cardType))
  {
  }

  /**
   * The expiration line: nothing without an `expiry`, otherwise `Expires`
   * followed by the date formatted as `MM/YY` (the formatter is a parameter).
   */
  function ExpirationText(expiry: Option<string>, formatMonthYear: string -> string): (text: Option<string>)
    ensures text.Some? <==> expiry.Some? && expiry.value != "" && formatMonthYear(expiry.value) != ""
    ensures text.Some? ==> text.value == "Expires " + formatMonthYear(expiry.value)
  {
    if expiry.None? || expiry.value == "" then None
    else
      var date := formatMonthYear(expiry.value);
      if date == "" then None else Some("Expires " + date)
  }
}
