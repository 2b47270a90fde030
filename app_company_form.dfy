/** The order form of app/components/CompanyForm.tsx: its schema, its
    default values, the weight handler that writes the read-only width and
    depth, and the `selectedWeight` state that shows the custom-weight input.
    This variant has no effects and no product-type reset. */
module AppCompanyForm {
  import opened Wrappers
  import opened FormText
  import opened Catalog

  /** One value per schema field. The text fields have no default and start
      absent (`None`); the custom weight is a number or absent. */
  datatype FormValues = FormValues(
    companyName: Option<string>,
    phoneNumber: Option<string>,
    phoneExt: Option<string>,
    companyAddress: Option<string>,
    shippingAddress: Option<string>,
    productType: ProductType,
    weight: string,
    customWeight: Option<int>,
    width: string,
    depth: string)

  /** The form's default values. */
  const DefaultValues := FormValues(None, None, None, None, None, PassengerElevator, "630", None, "1100", "1400")

  /** The initial value of the `selectedWeight` state. */
  const InitialSelectedWeight := "630"

  // ---------------------------------------------------------------------
  // Field validators

  /** `companyName` and `companyAddress`: present and non-empty. */
  predicate RequiredTextOk(s: Option<string>) {
    s.Some? && NonEmpty(s.value)
  }

  /** `phoneNumber`: present and matching the international pattern. */
  predicate PhoneNumberOk(s: Option<string>) {
    s.Some? && PhonePattern(s.value)
  }

  /** `phoneExt`: present and one or more digits. */
  predicate PhoneExtOk(s: Option<string>) {
    s.Some? && SomeDigits(s.value)
  }

  /** The values of the weight enumeration. */
  const WeightValues: seq<string> := ["630", "1000", "1250", "custom"]

  /** `weight`: one of the four enumeration values. */
  predicate WeightOk(s: string) {
    s in WeightValues
  }

  /** `customWeight`: absent, or a number in [200, 10000]. */
  predicate CustomWeightOk(n: Option<int>) {
    n.None? || 200 <= n.value <= 10000
  }

  /** The weight enumeration accepts exactly its four values; the custom
      weight's bounds are inclusive; an absent custom weight passes. */
  lemma ValidatorCases(s: string, n: int)
    ensures WeightOk(s) <==> s == "630" || s == "1000" || s == "1250" || s == "custom"
    ensures CustomWeightOk(Some(n)) <==> 200 <= n <= 10000
    ensures CustomWeightOk(None)
    ensures CustomWeightOk(Some(200)) && CustomWeightOk(Some(10000))
    ensures !CustomWeightOk(Some(199)) && !CustomWeightOk(Some(10001))
  {
  }

  /** The extension is required, and the empty string is refused. */
  lemma PhoneExtRequired(s: string)
    ensures !PhoneExtOk(None) && !PhoneExtOk(Some(""))
    ensures PhoneExtOk(Some(s)) <==> SomeDigits(s)
  {
  }

  /** The fields the schema can reject (`productType` holds an option value;
      `shippingAddress`, `width` and `depth` accept any string). */
  datatype Field = CompanyName | PhoneNumber | PhoneExt | CompanyAddress | Weight | CustomWeight

  const AllFields: set<Field> := {CompanyName, PhoneNumber, PhoneExt, CompanyAddress, Weight, CustomWeight}

  predicate FieldOk(v: FormValues, f: Field) {
    match f
    case CompanyName => RequiredTextOk(v.companyName)
    case PhoneNumber => PhoneNumberOk(v.phoneNumber)
    case PhoneExt => PhoneExtOk(v.phoneExt)
    case CompanyAddress => RequiredTextOk(v.companyAddress)
    case Weight => WeightOk(v.weight)
    case CustomWeight => CustomWeightOk(v.customWeight)
  }

  /** The fields the schema rejects. */
  function Rejected(v: FormValues): (r: set<Field>)
    ensures forall f: Field :: f in r <==> !FieldOk(v, f)
    ensures CompanyName in r <==> !RequiredTextOk(v.companyName)
    ensures PhoneNumber in r <==> !PhoneNumberOk(v.phoneNumber)
    ensures PhoneExt in r <==> !PhoneExtOk(v.phoneExt)
    ensures CompanyAddress in r <==> !RequiredTextOk(v.companyAddress)
    ensures Weight in r <==> !WeightOk(v.weight)
    ensures CustomWeight in r <==> !CustomWeightOk(v.customWeight)
  {
    set f | f in AllFields && !FieldOk(v, f)
  }

  /** The defaults are refused on exactly the four required contact fields,
      which start absent. */
  lemma DefaultsRejected()
    ensures Rejected(DefaultValues) == {CompanyName, PhoneNumber, PhoneExt, CompanyAddress}
  {
    var r := Rejected(DefaultValues);
    assert WeightOk(DefaultValues.weight);
    forall f | f in r ensures f in {CompanyName, PhoneNumber, PhoneExt, CompanyAddress} {
      match f
      case Weight =>
      case CustomWeight =>
      case _ =>
    }
  }

  /** `handleWeightChange`'s dimensions: width and depth start at 1100 and
      1400 and are reassigned by the if / else-if chain. */
  function TierDimensions(value: string): Dimensions {
    if value == "630" then Dimensions("1100", "1400")
    else if value == "1000" then Dimensions("1200", "2100")
    else if value == "1250" then Dimensions("1200", "2100")
    else Dimensions("1100", "1400")
  }

  /** 630 gives (1100, 1400); 1000 and 1250 give (1200, 2100); every other
      value, "custom" included, falls through to (1100, 1400). */
  lemma TierDimensionsTable(value: string)
    ensures TierDimensions("630") == Dimensions("1100", "1400")
    ensures TierDimensions("1000") == Dimensions("1200", "2100")
    ensures TierDimensions("1250") == Dimensions("1200", "2100")
    ensures value !in {"630", "1000", "1250"} ==> TierDimensions(value) == Dimensions("1100", "1400")
    ensures TierDimensions("custom") == TierDimensions("630")
  {
  }

  /** The defaults agree with the handler: the default weight is the initial
      selected weight, and the default width and depth are its dimensions. */
  lemma DefaultsMatchTier()
    ensures DefaultValues.weight == InitialSelectedWeight
    ensures Dimensions(DefaultValues.width, DefaultValues.depth) == TierDimensions(InitialSelectedWeight)
    ensures DefaultValues.productType == PassengerElevator
  {
  }

  // ---------------------------------------------------------------------
  // The form component's state, updated in place

  class OrderForm {
    var companyName: Option<string>
    var phoneNumber: Option<string>
    var phoneExt: Option<string>
    var companyAddress: Option<string>
    var shippingAddress: Option<string>
    var productType: ProductType
    var weight: string
    var customWeight: Option<int>
    var width: string
    var depth: string
    var selectedWeight: string

    /** The form values this object holds. */
    function Values(): FormValues
      reads this
    {
      FormValues(companyName, phoneNumber, phoneExt, companyAddress, shippingAddress,
                 productType, weight, customWeight, width, depth)
    }

    /** Weight and selected weight agree, and width and depth are the
      dimensions of that weight: the handler is their only writer, because
      both inputs are read-only. */
    predicate Consistent()
      reads this
    {
      weight == selectedWeight && Dimensions(width, depth) == TierDimensions(selectedWeight)
    }

    /** The custom-weight input is rendered exactly when this holds. */
    predicate CustomWeightVisible()
      reads this
    {
      selectedWeight == "custom"
    }

    constructor ()
      ensures Values() == DefaultValues && selectedWeight == InitialSelectedWeight
      ensures Consistent() && !CustomWeightVisible()
    {
      companyName, phoneNumber, phoneExt, companyAddress, shippingAddress := None, None, None, None, None;
      productType, weight, customWeight := PassengerElevator, "630", None;
      width, depth := "1100", "1400";
      selectedWeight := "630";
    }

    /** `handleWeightChange`: records the selected weight and writes both
      dimensions, touching no other field. */
    method HandleWeightChange(value: string)
      modifies this
      ensures selectedWeight == value
      ensures Dimensions(width, depth) == TierDimensions(value)
      ensures Values() == old(Values()).(width := TierDimensions(value).width, depth := TierDimensions(value).depth)
    {
      selectedWeight := value;
      var w := "1100";
      var d := "1400";
      if value == "630" {
        w, d := "1100", "1400";
      } else if value == "1000" {
        w, d := "1200", "2100";
      } else if value == "1250" {
        w, d := "1200", "2100";
      }
      width := w;
      depth := d;
    }

    /** The weight select's `onValueChange`: the field write, then the
      handler. The result is consistent whatever the state before. */
    method SelectWeight(value: string)
      modifies this
      ensures Consistent() && weight == value
      ensures CustomWeightVisible() <==> value == "custom"
      ensures Values() == old(Values()).(weight := value, width := TierDimensions(value).width,
                                         depth := TierDimensions(value).depth)
    {
      weight := value;
      HandleWeightChange(value);
    }

    /** The product-type select's `onChange`: only the type changes; the
      weight, dimensions and selected weight are kept. */
    method SelectProductType(t: ProductType)
      modifies this
      ensures Values() == old(Values()).(productType := t)
      ensures selectedWeight == old(selectedWeight)
      ensures old(Consistent()) ==> Consistent()
    {
      productType := t;
    }

    /** In a consistent state the custom-weight input is shown exactly when
      the weight is "custom", and width and depth are that weight's. */
    lemma VisibleIffCustom()
      requires Consistent()
      ensures CustomWeightVisible() <==> weight == "custom"
      ensures weight == "custom" ==> Dimensions(width, depth) == Dimensions("1100", "1400")
    {
    }
  }
}
