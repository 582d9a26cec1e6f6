/**
  The promotion form of app/promote-product.tsx: the form record and its
  per-field update, the ordered chain of required-field checks run before
  payment, and the duration-to-fee table with its default.
*/
module PromoteProduct {
  import opened Wrappers

  /** The form record (`ProductData`). */
  datatype ProductData = ProductData(
    vendorName: string,
    productName: string,
    description: string,
    imageUri: string,
    price: string,
    category: string,
    duration: string,
    contactEmail: string,
    contactPhone: string)

  /** The fields of the form (`keyof ProductData`). */
  datatype Field =
    | VendorName | ProductName | Description | ImageUri | Price
    | Category | Duration | ContactEmail | ContactPhone

  /** The value of one field. */
  function Get(d: ProductData, f: Field): string {
    match f
    case VendorName => d.vendorName
    case ProductName => d.productName
    case Description => d.description
    case ImageUri => d.imageUri
    case Price => d.price
    case Category => d.category
    case Duration => d.duration
    case ContactEmail => d.contactEmail
    case ContactPhone => d.contactPhone
  }

  /** `updateField(f, v)`: `f` takes the value `v`, and every other field keeps its value. */
  function UpdateField(d: ProductData, f: Field, v: string): (r: ProductData)
    ensures forall g :: Get(r, g) == if g == f then v else Get(d, g)
  {
    match f
    case VendorName => d.(vendorName := v)
    case ProductName => d.(productName := v)
    case Description => d.(description := v)
    case ImageUri => d.(imageUri := v)
    case Price => d.(price := v)
    case Category => d.(category := v)
    case Duration => d.(duration := v)
    case ContactEmail => d.(contactEmail := v)
    case ContactPhone => d.(contactPhone := v)
  }

  /** The category list; the form starts on its first entry. */
  const Categories: seq<string> := [
    "Electronics", "Fashion", "Home & Garden", "Sports & Outdoors", "Health & Beauty",
    "Books & Media", "Toys & Games", "Automotive", "Food & Beverages", "Other"
  ]

  /** The form as the screen opens it. */
  const InitialForm: ProductData :=
    ProductData("", "", "", "", "", Categories[0], "7", "", "")

  // ---------------------------------------------------------------------------
  // String.prototype.trim
  // ---------------------------------------------------------------------------

  /** The characters JavaScript's `trim` strips: its white space and line terminators. */
  predicate IsJsWhitespace(c: char) {
    c == '\t' || c == '\U{000B}' || c == '\U{000C}' || c == ' ' || c == '\U{00A0}'
    || c == '\U{FEFF}' || c == '\U{1680}' || ('\U{2000}' <= c <= '\U{200A}')
    || c == '\U{202F}' || c == '\U{205F}' || c == '\U{3000}'
    || c == '\n' || c == '\r' || c == '\U{2028}' || c == '\U{2029}'
  }

  /** `s` with its leading white space removed. */
  function TrimStart(s: string): string {
    if s != [] && IsJsWhitespace(s[0]) then TrimStart(s[1..]) else s
  }

  /** `s` with its trailing white space removed. */
  function TrimEnd(s: string): string {
    if s != [] && IsJsWhitespace(s[|s| - 1]) then TrimEnd(s[..|s| - 1]) else s
  }

  /** `s.trim()`. */
  function Trim(s: string): string {
    TrimEnd(TrimStart(s))
  }

  /** `!s.trim()`: nothing is left after trimming. */
  predicate IsBlank(s: string) {
    Trim(s) == ""
  }

  /** `TrimStart` drops exactly the leading run of white space: a suffix of `s` that starts on a non-space. */
  lemma {:induction false} TrimStartSpec(s: string)
    ensures |TrimStart(s)| <= |s| && TrimStart(s) == s[|s| - |TrimStart(s)|..]
    ensures TrimStart(s) == [] || !IsJsWhitespace(TrimStart(s)[0])
    ensures forall i :: 0 <= i < |s| - |TrimStart(s)| ==> IsJsWhitespace(s[i])
  {
    if s != [] && IsJsWhitespace(s[0]) {
      TrimStartSpec(s[1..]);
      var r := TrimStart(s[1..]);
      forall i | 0 <= i < |s| - |r| ensures IsJsWhitespace(s[i]) {
        if i > 0 {
          assert s[i] == s[1..][i - 1];
        }
      }
    }
  }

  /** `TrimEnd` drops exactly the trailing run of white space: a prefix of `s` that ends on a non-space. */
  lemma {:induction false} TrimEndSpec(s: string)
    ensures |TrimEnd(s)| <= |s| && TrimEnd(s) == s[..|TrimEnd(s)|]
    ensures TrimEnd(s) == [] || !IsJsWhitespace(TrimEnd(s)[|TrimEnd(s)| - 1])
    ensures forall i :: |TrimEnd(s)| <= i < |s| ==> IsJsWhitespace(s[i])
  {
    if s != [] && IsJsWhitespace(s[|s| - 1]) {
      TrimEndSpec(s[..|s| - 1]);
      var r := TrimEnd(s[..|s| - 1]);
      forall i | |r| <= i < |s| ensures IsJsWhitespace(s[i]) {
        if i < |s| - 1 {
          assert s[i] == s[..|s| - 1][i];
        }
      }
    }
  }

  /** A string of white space only trims to nothing at its start already. */
  lemma {:induction false} TrimStartOfWhitespace(s: string)
    requires forall i :: 0 <= i < |s| ==> IsJsWhitespace(s[i])
    ensures TrimStart(s) == ""
  {
    if s != [] {
      assert forall i :: 0 <= i < |s[1..]| ==> s[1..][i] == s[i + 1];
      TrimStartOfWhitespace(s[1..]);
    }
  }

  /** A field is blank exactly when every character of it is white space. */
  lemma BlankIffAllWhitespace(s: string)
    ensures IsBlank(s) <==> forall i :: 0 <= i < |s| ==> IsJsWhitespace(s[i])
  {
    var t := TrimStart(s);
    TrimStartSpec(s);
    TrimEndSpec(t);
    if forall i :: 0 <= i < |s| ==> IsJsWhitespace(s[i]) {
      TrimStartOfWhitespace(s);
    }
  }

  // ---------------------------------------------------------------------------
  // validateForm
  // ---------------------------------------------------------------------------

  /** What `validateForm` reports, one per check. */
  datatype FormError =
    | MissingVendorName | MissingProductName | MissingDescription | MissingPrice | MissingContact

  /** The text of the alert shown for each error. */
  function Message(e: FormError): string {
    match e
    case MissingVendorName => "Please enter vendor name"
    case MissingProductName => "Please enter product name"
    case MissingDescription => "Please enter product description"
    case MissingPrice => "Please enter product price"
    case MissingContact => "Please provide either email or phone contact"
  }

  /** The position of each check in the chain. */
  function Rank(e: FormError): nat {
    match e
    case MissingVendorName => 0
    case MissingProductName => 1
    case MissingDescription => 2
    case MissingPrice => 3
    case MissingContact => 4
  }

  /** The condition under which the check for `e` fails. */
  predicate Fails(d: ProductData, e: FormError) {
    match e
    case MissingVendorName => IsBlank(d.vendorName)
    case MissingProductName => IsBlank(d.productName)
    case MissingDescription => IsBlank(d.description)
    case MissingPrice => IsBlank(d.price)
    case MissingContact => IsBlank(d.contactEmail) && IsBlank(d.contactPhone)
  }

  /**
    The chain of checks with its early returns: the form passes when no check fails,
    and otherwise the error reported is that of the first failing check.
  */
  function Validate(d: ProductData): (r: Outcome<FormError>)
    ensures r.Pass? ==> forall e :: !Fails(d, e)
    ensures r.Fail? ==> Fails(d, r.error) && forall e :: Rank(e) < Rank(r.error) ==> !Fails(d, e)
  {
    if IsBlank(d.vendorName) then Fail(MissingVendorName)
    else if IsBlank(d.productName) then Fail(MissingProductName)
    else if IsBlank(d.description) then Fail(MissingDescription)
    else if IsBlank(d.price) then Fail(MissingPrice)
    else if IsBlank(d.contactEmail) && IsBlank(d.contactPhone) then Fail(MissingContact)
    else Pass
  }

  /**
    `validateForm()`: true exactly when vendor name, product name, description and price
    are non-blank and at least one of email and phone is non-blank.
  */
  function ValidateForm(d: ProductData): (ok: bool)
    ensures ok <==>
      !IsBlank(d.vendorName) && !IsBlank(d.productName) && !IsBlank(d.description)
      && !IsBlank(d.price) && (!IsBlank(d.contactEmail) || !IsBlank(d.contactPhone))
  {
    Validate(d).Pass?
  }

  /** The error reported is decided by the first failing check, whatever the later fields hold. */
  lemma FirstFailureDecides(d: ProductData, e: FormError)
    ensures Validate(d) == Fail(e) <==> Fails(d, e) && forall e' :: Rank(e') < Rank(e) ==> !Fails(d, e')
  {
    if Fails(d, e) && forall e' :: Rank(e') < Rank(e) ==> !Fails(d, e') {
      var r := Validate(d);
      assert r.Fail?;
      assert Rank(r.error) == Rank(e) by {
        assert !(Rank(r.error) < Rank(e));
        assert !(Rank(e) < Rank(r.error));
      }
    }
  }

  // ---------------------------------------------------------------------------
  // The fee for the chosen duration
  // ---------------------------------------------------------------------------

  /** An entry of `promotionDurations` (`labelText` is its `label`). */
  datatype DurationOption = DurationOption(labelText: string, value: string, price: int)

  /** `promotionDurations`, in its order. */
  const PromotionDurations: seq<DurationOption> := [
    DurationOption("7 days - $5", "7", 5),
    DurationOption("14 days - $8", "14", 8),
    DurationOption("30 days - $12", "30", 12)
  ]

  /** The fee charged when the chosen duration has no usable price. */
  const DefaultFee: int := 5

  /** `promotionDurations.find((d) => d.value === value)`. */
  function FindDuration(options: seq<DurationOption>, value: string): (r: Option<DurationOption>)
    ensures r.Some? ==> r.value in options && r.value.value == value
    ensures r.None? ==> forall o :: o in options ==> o.value != value
    ensures r.Some? ==>
      exists i :: 0 <= i < |options| && options[i] == r.value &&
        forall j :: 0 <= j < i ==> options[j].value != value
  {
    if options == [] then None
    else if options[0].value == value then Some(options[0])
    else FindDuration(options[1..], value)
  }

  /** `selectedDuration?.price || 5`. */
  function Fee(duration: string): int {
    match FindDuration(PromotionDurations, duration)
    case Some(o) => if o.price != 0 then o.price else DefaultFee
    case None => DefaultFee
  }

  /** The fee for 7, 14 and 30 days is 5, 8 and 12; any other duration falls back to 5. */
  lemma FeeTable(duration: string)
    ensures Fee(duration) ==
      if duration == "7" then 5
      else if duration == "14" then 8
      else if duration == "30" then 12
      else 5
  {
    var r := FindDuration(PromotionDurations, duration);
    if r.Some? {
      assert r.value == PromotionDurations[0] || r.value == PromotionDurations[1]
        || r.value == PromotionDurations[2];
    }
  }

  /** The parameters passed on to the checkout screen. */
  datatype CheckoutParams = CheckoutParams(productData: ProductData, price: int, duration: string)

  /** `handleContinueToPayment`: nothing when the form is invalid, else the checkout parameters. */
  function ContinueToPayment(d: ProductData): (r: Option<CheckoutParams>)
    ensures r.Some? <==> ValidateForm(d)
    ensures r.Some? ==> r.value.productData == d && r.value.duration == d.duration
    ensures r.Some? ==> r.value.price == Fee(d.duration)
    ensures r.Some? ==> r.value.price == 5 || r.value.price == 8 || r.value.price == 12
  {
    FeeTable(d.duration);
    if !ValidateForm(d) then None
    else Some(CheckoutParams(d, Fee(d.duration), d.duration))
  }

  /** The form as first shown is rejected for its vendor name, and would be charged 5. */
  lemma InitialFormRejected()
    ensures Validate(InitialForm) == Fail(MissingVendorName)
    ensures Fee(InitialForm.duration) == 5
  {
    assert TrimStart("") == "";
    FeeTable(InitialForm.duration);
  }
}
