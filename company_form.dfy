/** The order form of components/company-form.tsx: its schema, the cabin
    dimension table for passenger elevators, the two effects that rewrite
    fields when the product type or the weight changes, the weight select's
    handler and the submit normalisation of a custom weight.

    The form is modelled twice, as in the other form module: pure transition
    functions on a `UiState` value state what each edit does, and the class
    `OrderForm` performs the same field writes step by step, each method
    proved to match its transition function. */
module CompanyForm {
  import opened Wrappers
  import opened FormText
  import opened Catalog

  /** One value per schema field. `earlyPayment` is the cabin width and
      `latePayment` the cabin depth. `productType` holds one of the three
      select options; every other field holds a string, because the form's
      default values give each of them one. */
  datatype FormValues = FormValues(
    companyName: string,
    phoneNumber: string,
    phoneExt: string,
    companyAddress: string,
    serviceAddress: string,
    productType: ProductType,
    weight: string,
    customWeight: string,
    earlyPayment: string,
    latePayment: string)

  /** The form's default values. */
  const DefaultValues := FormValues("", "", "", "", "", PassengerElevator, "630", "", "", "")

  /** The form values together with the component's `isCustomWeight` flag. */
  datatype UiState = UiState(values: FormValues, isCustomWeight: bool)

  /** The state before the first effects run: defaults, and the flag false. */
  const InitialState := UiState(DefaultValues, false)

  // ---------------------------------------------------------------------
  // Field validators

  /** `weight`: "custom" always passes; any other value passes when
      `Number` of it lies in [200, 10000]. */
  predicate WeightOk(s: string) {
    s == "custom" || NumberInRange(s, 200, 10000)
  }

  /** `customWeight`: absent, or one or more digits with a value in [200, 10000]. */
  predicate CustomWeightOk(s: Option<string>) {
    s.None? || (SomeDigits(s.value) && NumberInRange(s.value, 200, 10000))
  }

  /** `earlyPayment` (width): one or more digits with a value in [1000, 2000]. */
  predicate WidthOk(s: string) {
    SomeDigits(s) && NumberInRange(s, 1000, 2000)
  }

  /** `latePayment` (depth): absent, or one or more digits with a value in [1000, 2500]. */
  predicate DepthOk(s: Option<string>) {
    s.None? || (SomeDigits(s.value) && NumberInRange(s.value, 1000, 2500))
  }

  /** `phoneExt`: absent, or digits only (the empty string included). */
  predicate PhoneExtOk(s: Option<string>) {
    s.None? || AllDigits(s.value)
  }

  /** The boundaries of the weight check, its "custom" escape, and the empty
      string, which `Number` reads as 0. */
  lemma WeightCheckBoundaries()
    ensures WeightOk("custom")
    ensures WeightOk("200") && WeightOk("10000")
    ensures !WeightOk("199") && !WeightOk("10001")
    ensures !WeightOk("")
  {
    assert DecimalString(200) == "200";
    assert DecimalString(10000) == "10000";
    assert DecimalString(199) == "199";
    assert DecimalString(10001) == "10001";
    DecimalInRange(200, 200, 10000);
    DecimalInRange(10000, 200, 10000);
    DecimalInRange(199, 200, 10000);
    DecimalInRange(10001, 200, 10000);
  }

  /** On decimal numbers, each numeric check is exactly its inclusive range. */
  lemma RangeChecksOnNumbers(n: nat)
    ensures WeightOk(DecimalString(n)) <==> 200 <= n <= 10000
    ensures CustomWeightOk(Some(DecimalString(n))) <==> 200 <= n <= 10000
    ensures WidthOk(DecimalString(n)) <==> 1000 <= n <= 2000
    ensures DepthOk(Some(DecimalString(n))) <==> 1000 <= n <= 2500
  {
    var s := DecimalString(n);
    assert s != "custom" by {
      assert IsDigit(s[0]);
    }
    DecimalInRange(n, 200, 10000);
    DecimalInRange(n, 1000, 2000);
    DecimalInRange(n, 1000, 2500);
  }

  /** Absent optional fields pass; present empty ones do not, except the
      extension, whose pattern admits no digits at all. */
  lemma OptionalFieldChecks()
    ensures CustomWeightOk(None) && DepthOk(None) && PhoneExtOk(None)
    ensures !CustomWeightOk(Some("")) && !DepthOk(Some("")) && !WidthOk("")
    ensures PhoneExtOk(Some(""))
  {
  }

  /** The fields the schema can reject (`productType` holds an option value
      and `serviceAddress` accepts any string). */
  datatype Field = CompanyName | PhoneNumber | PhoneExt | CompanyAddress
                 | Weight | CustomWeight | EarlyPayment | LatePayment

  const AllFields: set<Field> :=
    {CompanyName, PhoneNumber, PhoneExt, CompanyAddress, Weight, CustomWeight, EarlyPayment, LatePayment}

  /** The check the schema applies to each field. `.optional()` admits an
      absent value only; every field of this form holds a string, so the
      optional fields are checked as present. */
  predicate FieldOk(v: FormValues, f: Field) {
    match f
    case CompanyName => NonEmpty(v.companyName)
    case PhoneNumber => PhonePattern(v.phoneNumber)
    case PhoneExt => PhoneExtOk(Some(v.phoneExt))
    case CompanyAddress => NonEmpty(v.companyAddress)
    case Weight => WeightOk(v.weight)
    case CustomWeight => CustomWeightOk(Some(v.customWeight))
    case EarlyPayment => WidthOk(v.earlyPayment)
    case LatePayment => DepthOk(Some(v.latePayment))
  }

  /** The fields the schema rejects. */
  function Rejected(v: FormValues): (r: set<Field>)
    ensures forall f: Field :: f in r <==> !FieldOk(v, f)
    ensures CompanyName in r <==> !NonEmpty(v.companyName)
    ensures PhoneNumber in r <==> !PhonePattern(v.phoneNumber)
    ensures PhoneExt in r <==> !PhoneExtOk(Some(v.phoneExt))
    ensures CompanyAddress in r <==> !NonEmpty(v.companyAddress)
    ensures Weight in r <==> !WeightOk(v.weight)
    ensures CustomWeight in r <==> !CustomWeightOk(Some(v.customWeight))
    ensures EarlyPayment in r <==> !WidthOk(v.earlyPayment)
    ensures LatePayment in r <==> !DepthOk(Some(v.latePayment))
  {
    set f | f in AllFields && !FieldOk(v, f)
  }

  /** The contact fields every product type shows. */
  predicate ContactOk(v: FormValues) {
    NonEmpty(v.companyName) && PhonePattern(v.phoneNumber)
    && PhoneExtOk(Some(v.phoneExt)) && NonEmpty(v.companyAddress)
  }

  /** The schema accepts the values exactly when every field check passes. */
  lemma RejectedEmptyIff(v: FormValues)
    ensures Rejected(v) == {} <==>
      ContactOk(v) && WeightOk(v.weight) && CustomWeightOk(Some(v.customWeight))
      && WidthOk(v.earlyPayment) && DepthOk(Some(v.latePayment))
  {
    var r := Rejected(v);
    if ContactOk(v) && WeightOk(v.weight) && CustomWeightOk(Some(v.customWeight))
       && WidthOk(v.earlyPayment) && DepthOk(Some(v.latePayment)) {
      forall f: Field ensures f !in r {
        match f
        case CompanyName =>
        case PhoneNumber =>
        case PhoneExt =>
        case CompanyAddress =>
        case Weight =>
        case CustomWeight =>
        case EarlyPayment =>
        case LatePayment =>
      }
    }
  }

  // ---------------------------------------------------------------------
  // The dimension table

  /** A width or depth entry: one fixed value, or the options of a select. */
  datatype Choice = Single(value: string) | OneOf(values: seq<string>)

  /** Width (`early`) and depth (`late`) for the current selections. */
  datatype PaymentOptions = PaymentOptions(early: Choice, late: Choice)

  /** The table of cabin widths and depths: fixed pairs for 630 and 1000,
      two independent selects for 1250, and empty strings otherwise. */
  function GetPaymentOptions(productType: ProductType, weight: string): (r: PaymentOptions)
    ensures r.early.Single? <==> r.late.Single?
    ensures r.early.OneOf? ==> |r.early.values| == 2 && |r.late.values| == 2
    ensures productType != PassengerElevator ==> r == PaymentOptions(Single(""), Single(""))
  {
    if productType == PassengerElevator then
      if weight == "630" then PaymentOptions(Single("1100"), Single("1400"))
      else if weight == "1000" then PaymentOptions(Single("1200"), Single("2100"))
      else if weight == "1250" then PaymentOptions(OneOf(["1200", "1600"]), OneOf(["2100", "1400"]))
      else PaymentOptions(Single(""), Single(""))
    else PaymentOptions(Single(""), Single(""))
  }

  /** The weight select's options. */
  function WeightOptions(): (r: seq<string>)
    ensures |r| == 4 && r[|r| - 1] == "custom"
  {
    ["630", "1000", "1250", "custom"]
  }

  /** The weight effect's test: a width that is a single non-empty string. */
  predicate HasFixedDimensions(o: PaymentOptions) {
    o.early.Single? && o.early.value != ""
  }

  /** Every entry of the table for passenger elevators. */
  lemma PaymentOptionsTable(weight: string)
    ensures GetPaymentOptions(PassengerElevator, "630") == PaymentOptions(Single("1100"), Single("1400"))
    ensures GetPaymentOptions(PassengerElevator, "1000") == PaymentOptions(Single("1200"), Single("2100"))
    ensures GetPaymentOptions(PassengerElevator, "1250")
         == PaymentOptions(OneOf(["1200", "1600"]), OneOf(["2100", "1400"]))
    ensures weight !in {"630", "1000", "1250"} ==>
      GetPaymentOptions(PassengerElevator, weight) == PaymentOptions(Single(""), Single(""))
  {
  }

  /** The table yields a fixed, non-empty pair exactly for passenger
      elevators at 630 or 1000. */
  lemma FixedDimensionsExactly(productType: ProductType, weight: string)
    ensures HasFixedDimensions(GetPaymentOptions(productType, weight)) <==>
      productType == PassengerElevator && (weight == "630" || weight == "1000")
  {
  }

  /** Every weight option passes the weight check; "custom" is the only one
      that is not a number. */
  lemma WeightOptionsPass()
    ensures forall w :: w in WeightOptions() ==> WeightOk(w)
    ensures forall w :: w in WeightOptions() && w != "custom" ==> NumberInRange(w, 200, 10000)
  {
    assert DecimalString(630) == "630";
    assert DecimalString(1000) == "1000";
    assert DecimalString(1250) == "1250";
    DecimalInRange(630, 200, 10000);
    DecimalInRange(1000, 200, 10000);
    DecimalInRange(1250, 200, 10000);
  }

  // ---------------------------------------------------------------------
  // Edits, as transition functions

  /** The product-type effect: an elevator gets weight "630" and the flag
      cleared; any other type gets weight, custom weight, width and depth
      emptied. */
  function ProductTypeReset(s: UiState): UiState {
    var v := s.values;
    if v.productType == PassengerElevator then
      UiState(v.(weight := "630"), false)
    else
      UiState(v.(weight := "", customWeight := "", earlyPayment := "", latePayment := ""), s.isCustomWeight)
  }

  /** One run of the weight effect, where `productType` and `weight` are the
      values seen by the render that scheduled it. */
  function WeightEffectRun(s: UiState, productType: ProductType, weight: string): UiState {
    if productType == PassengerElevator then
      var options := GetPaymentOptions(productType, weight);
      var v := if HasFixedDimensions(options)
               then s.values.(earlyPayment := options.early.value, latePayment := options.late.value)
               else s.values;
      UiState(v, weight == "custom")
    else
      s
  }

  /** The weight effect run on the current values. */
  function WeightSync(s: UiState): UiState {
    WeightEffectRun(s, s.values.productType, s.values.weight)
  }

  /** The weight select's handler: the new weight, and the flag set from it. */
  function WeightSelected(s: UiState, value: string): UiState {
    UiState(s.values.(weight := value), value == "custom")
  }

  /** The product-type select writes the new type. */
  function ProductTypeSelected(s: UiState, t: ProductType): UiState {
    s.(values := s.values.(productType := t))
  }

  /** The inputs that write one string field and nothing else (the two
      dimension selects at tier 1250 write their field the same way). */
  datatype TextInput = CompanyNameInput | PhoneNumberInput | PhoneExtInput
                     | CompanyAddressInput | ServiceAddressInput
                     | CustomWeightInput | WidthInput | DepthInput

  function TextEdited(s: UiState, f: TextInput, value: string): UiState {
    var v := s.values;
    var v' := match f
      case CompanyNameInput => v.(companyName := value)
      case PhoneNumberInput => v.(phoneNumber := value)
      case PhoneExtInput => v.(phoneExt := value)
      case CompanyAddressInput => v.(companyAddress := value)
      case ServiceAddressInput => v.(serviceAddress := value)
      case CustomWeightInput => v.(customWeight := value)
      case WidthInput => v.(earlyPayment := value)
      case DepthInput => v.(latePayment := value);
    s.(values := v')
  }

  /** Which inputs are on screen: weight, width and depth only for
      elevators, the custom weight only while the flag is also set. */
  predicate Visible(s: UiState, f: TextInput) {
    match f
    case CustomWeightInput => s.values.productType == PassengerElevator && s.isCustomWeight
    case WidthInput => s.values.productType == PassengerElevator
    case DepthInput => s.values.productType == PassengerElevator
    case _ => true
  }

  /** A product-type change as React runs it. Nothing happens when the type
      is unchanged. Otherwise both effects run in declaration order, the
      weight effect seeing the weight from before the reset; when the reset
      changed the weight, the weight effect runs once more on the new one. */
  function ProductTypeChanged(s: UiState, t: ProductType): UiState {
    if t == s.values.productType then s
    else
      var reset := ProductTypeReset(ProductTypeSelected(s, t));
      var first := WeightEffectRun(reset, t, s.values.weight);
      if reset.values.weight != s.values.weight then WeightSync(first) else first
  }

  /** A weight selection: the handler, then the weight effect when the
      weight actually changed. */
  function WeightChanged(s: UiState, value: string): UiState {
    var selected := WeightSelected(s, value);
    if value != s.values.weight then WeightSync(selected) else selected
  }

  /** The state after mounting: both effects run once on the defaults. */
  function Mounted(): UiState {
    WeightSync(ProductTypeReset(InitialState))
  }

  // ---------------------------------------------------------------------
  // What the edits keep and produce

  /** The states the form can reach: an elevator has an offered weight and
      the flag agrees with it; any other type has its four dependent fields
      empty. */
  predicate Settled(s: UiState) {
    var v := s.values;
    if v.productType == PassengerElevator then
      v.weight in WeightOptions() && s.isCustomWeight == (v.weight == "custom")
    else
      v.weight == "" && v.customWeight == "" && v.earlyPayment == "" && v.latePayment == ""
  }

  /** Neither effect touches the contact fields or the product type; the
      weight effect never touches the custom weight, and for an elevator the
      reset touches only the weight and the flag. */
  lemma EffectsFrame(s: UiState, productType: ProductType, weight: string)
    ensures var r := ProductTypeReset(s);
      r.values.(weight := s.values.weight, customWeight := s.values.customWeight,
                earlyPayment := s.values.earlyPayment, latePayment := s.values.latePayment) == s.values
    ensures s.values.productType == PassengerElevator ==>
      ProductTypeReset(s).values == s.values.(weight := "630") && !ProductTypeReset(s).isCustomWeight
    ensures s.values.productType != PassengerElevator ==>
      ProductTypeReset(s).isCustomWeight == s.isCustomWeight
    ensures var r := WeightEffectRun(s, productType, weight);
      r.values.(earlyPayment := s.values.earlyPayment, latePayment := s.values.latePayment) == s.values
  {
  }

  /** The weight effect on an elevator: the flag follows the weight, 630 and
      1000 set their fixed width and depth, and every other weight (1250,
      "custom") leaves width and depth as they were. On any other type it
      does nothing. */
  lemma WeightSyncDimensions(s: UiState)
    ensures var r := WeightSync(s);
      s.values.productType == PassengerElevator ==>
        && r.isCustomWeight == (s.values.weight == "custom")
        && (s.values.weight == "630" ==> r.values == s.values.(earlyPayment := "1100", latePayment := "1400"))
        && (s.values.weight == "1000" ==> r.values == s.values.(earlyPayment := "1200", latePayment := "2100"))
        && (s.values.weight != "630" && s.values.weight != "1000" ==> r.values == s.values)
    ensures s.values.productType != PassengerElevator ==> WeightSync(s) == s
  {
    FixedDimensionsExactly(s.values.productType, s.values.weight);
  }

  /** Resetting an elevator and then syncing its weight always yields the
      630 tier with its dimensions, whatever tier was selected before. */
  lemma ResetThenSyncForElevator(s: UiState)
    requires s.values.productType == PassengerElevator
    ensures var r := WeightSync(ProductTypeReset(s));
      r.values == s.values.(weight := "630", earlyPayment := "1100", latePayment := "1400")
      && !r.isCustomWeight
  {
  }

  /** Mounting yields the 630 tier with width 1100 and depth 1400. */
  lemma MountedValues()
    ensures Mounted() == UiState(DefaultValues.(earlyPayment := "1100", latePayment := "1400"), false)
    ensures Settled(Mounted())
  {
  }

  /** Mounting twice, as React's development mode does: both effects run
      again with the values the first render saw (an elevator at 630), and
      the state is the one a single mount gives. */
  lemma DoubleMount()
    ensures WeightEffectRun(ProductTypeReset(Mounted()), PassengerElevator, "630") == Mounted()
    ensures WeightSync(ProductTypeReset(Mounted())) == Mounted()
  {
  }

  /** Switching back to the elevator restores the 630 tier and its
      dimensions; switching to another type empties the dependent fields. */
  lemma ProductTypeChangeOutcome(s: UiState, t: ProductType)
    requires Settled(s) && t != s.values.productType
    ensures var r := ProductTypeChanged(s, t);
      t == PassengerElevator ==>
        r == UiState(s.values.(productType := t, weight := "630", earlyPayment := "1100", latePayment := "1400"), false)
    ensures var r := ProductTypeChanged(s, t);
      t != PassengerElevator ==>
        r == UiState(s.values.(productType := t, weight := "", customWeight := "", earlyPayment := "",
                               latePayment := ""), s.isCustomWeight)
  {
  }

  /** The first run of the weight effect after a product-type change sees
      the old weight, and on a settled state it is overridden or a no-op:
      the outcome is the reset followed by one sync on the new values. */
  lemma StaleWeightRunHarmless(s: UiState, t: ProductType)
    requires Settled(s) && t != s.values.productType
    ensures ProductTypeChanged(s, t) == WeightSync(ProductTypeReset(ProductTypeSelected(s, t)))
  {
  }

  /** A weight selection on an elevator: the flag follows the new value; a
      changed weight of 630 or 1000 sets its dimensions; 1250, "custom" or an
      unchanged weight leaves width and depth alone. */
  lemma WeightChangedOutcome(s: UiState, value: string)
    requires s.values.productType == PassengerElevator
    ensures var r := WeightChanged(s, value);
      && r.isCustomWeight == (value == "custom")
      && r.values.weight == value
      && (value != s.values.weight && value == "630" ==>
            r.values == s.values.(weight := value, earlyPayment := "1100", latePayment := "1400"))
      && (value != s.values.weight && value == "1000" ==>
            r.values == s.values.(weight := value, earlyPayment := "1200", latePayment := "2100"))
      && (value == s.values.weight || (value != "630" && value != "1000") ==>
            r.values == s.values.(weight := value))
  {
    WeightSyncDimensions(WeightSelected(s, value));
  }

  /** Both effects are idempotent: running one again changes nothing. */
  lemma EffectsIdempotent(s: UiState)
    ensures ProductTypeReset(ProductTypeReset(s)) == ProductTypeReset(s)
    ensures WeightSync(WeightSync(s)) == WeightSync(s)
  {
  }

  /** Every edit the page offers keeps the state settled. */
  lemma {:induction false} SettledPreserved(s: UiState, t: ProductType, weight: string, f: TextInput, text: string)
    requires Settled(s)
    ensures Settled(ProductTypeChanged(s, t))
    ensures s.values.productType == PassengerElevator && weight in WeightOptions() ==>
      Settled(WeightChanged(s, weight))
    ensures Visible(s, f) ==> Settled(TextEdited(s, f, text))
  {
    if t != s.values.productType {
      ProductTypeChangeOutcome(s, t);
    }
    if s.values.productType == PassengerElevator {
      WeightChangedOutcome(s, weight);
    }
  }

  /** In a settled state the custom-weight input is on screen exactly when
      an elevator has the weight "custom". */
  lemma CustomWeightShownIff(s: UiState)
    requires Settled(s)
    ensures Visible(s, CustomWeightInput) <==>
      s.values.productType == PassengerElevator && s.values.weight == "custom"
  {
  }

  // ---------------------------------------------------------------------
  // Submission

  /** The submit callback's final values: a custom weight is collapsed into
      the `weight` field. */
  function Normalise(v: FormValues): FormValues {
    v.(weight := if v.weight == "custom" then v.customWeight else v.weight)
  }

  /** The final weight is the custom weight when "custom" was selected and
      the selected weight otherwise; nothing else changes. */
  lemma NormaliseCollapsesCustomWeight(v: FormValues)
    ensures v.weight == "custom" ==> Normalise(v).weight == v.customWeight
    ensures v.weight != "custom" ==> Normalise(v) == v
    ensures Normalise(v).(weight := v.weight) == v
    ensures Normalise(Normalise(v)) == Normalise(v)
  {
  }

  /** Values the schema accepts submit a weight that is a number in
      [200, 10000], never the word "custom". */
  lemma SubmittedWeightInRange(v: FormValues)
    requires Rejected(v) == {}
    ensures NumberInRange(Normalise(v).weight, 200, 10000)
  {
  }

  /** `handleSubmit(onSubmit)` as written. The callback runs exactly when
      every field check passes, and it submits the values with a custom
      weight collapsed into `weight`, which is then a number in [200, 10000];
      otherwise the errors name exactly the failing fields. */
  function SubmitAsWritten(v: FormValues): (r: Result<FormValues, set<Field>>)
    ensures r.Ok? <==>
      ContactOk(v) && WeightOk(v.weight) && CustomWeightOk(Some(v.customWeight))
      && WidthOk(v.earlyPayment) && DepthOk(Some(v.latePayment))
    ensures r.Ok? ==>
      && r.value.(weight := v.weight) == v
      && r.value.weight == (if v.weight == "custom" then v.customWeight else v.weight)
      && NumberInRange(r.value.weight, 200, 10000)
    ensures r.Err? ==> r.error != {} && (forall f: Field :: f in r.error <==> !FieldOk(v, f))
  {
    var rejected := Rejected(v);
    RejectedEmptyIff(v);
    if rejected == {} then
      SubmittedWeightInRange(v);
      Ok(Normalise(v))
    else Err(rejected)
  }

  /** As-written: the custom weight is validated even while hidden. Its
      default is the empty string, which fails `/^\d+$/`, so every order that
      did not choose "custom" is refused. */
  lemma EmptyCustomWeightBlocksSubmit(v: FormValues)
    requires v.customWeight == ""
    ensures SubmitAsWritten(v).Err? && CustomWeight in SubmitAsWritten(v).error
  {
  }

  /** As-written: after the reset for an escalator or moving walkway, the
      emptied weight, custom weight, width and depth all fail, so such an
      order can never be submitted. */
  lemma NonElevatorNeverSubmits(s: UiState, t: ProductType)
    requires t != PassengerElevator
    ensures var v := ProductTypeReset(ProductTypeSelected(s, t)).values;
      {Weight, CustomWeight, EarlyPayment, LatePayment} <= Rejected(v)
  {
    var v := ProductTypeReset(ProductTypeSelected(s, t)).values;
    assert !WeightOk(v.weight) by {
      assert v.weight == "";
    }
  }

  /** A concrete order showing the as-written refusal: the mounted form with
      its contact fields filled in. */
  function ExampleOrder(): FormValues {
    Mounted().values.(companyName := "Acme", phoneNumber := "+8613800000000", companyAddress := "1 Main St")
  }

  lemma ExampleOrderRefusedAsWritten()
    ensures SubmitAsWritten(ExampleOrder()) == Err({CustomWeight})
  {
    var v := ExampleOrder();
    assert PhonePattern(v.phoneNumber) by {
      PhonePatternBuilds(true, '8', "613800000000");
      assert "+" + ['8'] + "613800000000" == "+8613800000000";
    }
    assert WeightOk(v.weight) by {
      WeightOptionsPass();
    }
    assert WidthOk(v.earlyPayment) by {
      assert DecimalString(1100) == "1100";
      DecimalInRange(1100, 1000, 2000);
    }
    assert DepthOk(Some(v.latePayment)) by {
      assert DecimalString(1400) == "1400";
      DecimalInRange(1400, 1000, 2500);
    }
    assert v == FormValues("Acme", "+8613800000000", "", "1 Main St", "", PassengerElevator,
                           "630", "", "1100", "1400");
    var r := Rejected(v);
    assert CustomWeight in r;
    forall f | f in r ensures f == CustomWeight {
      match f
      case CustomWeight =>
      case _ =>
    }
    assert r == {CustomWeight};
  }

  /** The corrected gate: a field is validated only while it is on screen.
      Weight, width and depth are checked for elevators, and the custom
      weight, then required, only when "custom" is selected. */
  predicate Validated(v: FormValues, f: Field) {
    match f
    case Weight | EarlyPayment | LatePayment => v.productType == PassengerElevator
    case CustomWeight => v.productType == PassengerElevator && v.weight == "custom"
    case _ => true
  }

  function VisibleRejected(v: FormValues): (r: set<Field>)
    ensures forall f: Field :: f in r <==> Validated(v, f) && !FieldOk(v, f)
    ensures r <= Rejected(v)
    ensures v.productType != PassengerElevator ==> r <= {CompanyName, PhoneNumber, PhoneExt, CompanyAddress}
    ensures v.weight != "custom" ==> CustomWeight !in r
  {
    set f | f in AllFields && Validated(v, f) && !FieldOk(v, f)
  }

  /** The corrected gate passes exactly when the contact fields pass and, for
      an elevator, the weight, width and depth pass, and the custom weight
      too when "custom" is selected. */
  lemma VisibleRejectedEmptyIff(v: FormValues)
    ensures VisibleRejected(v) == {} <==>
      ContactOk(v)
      && (v.productType == PassengerElevator ==>
            WeightOk(v.weight) && WidthOk(v.earlyPayment) && DepthOk(Some(v.latePayment))
            && (v.weight == "custom" ==> CustomWeightOk(Some(v.customWeight))))
  {
    var r := VisibleRejected(v);
    if ContactOk(v)
       && (v.productType == PassengerElevator ==>
             WeightOk(v.weight) && WidthOk(v.earlyPayment) && DepthOk(Some(v.latePayment))
             && (v.weight == "custom" ==> CustomWeightOk(Some(v.customWeight)))) {
      forall f: Field ensures f !in r {
        match f
        case CompanyName =>
        case PhoneNumber =>
        case PhoneExt =>
        case CompanyAddress =>
        case Weight =>
        case CustomWeight =>
        case EarlyPayment =>
        case LatePayment =>
      }
    }
  }

  /** Submission through the corrected gate. The callback runs exactly when
      every field on screen passes; an escalator or moving walkway needs only
      its contact fields. The submitted values collapse a custom weight into
      `weight`, which for an elevator is a number in [200, 10000]. Otherwise
      the errors name exactly the on-screen fields the schema rejects. */
  function Submit(v: FormValues): (r: Result<FormValues, set<Field>>)
    ensures r.Ok? <==>
      ContactOk(v)
      && (v.productType == PassengerElevator ==>
            WeightOk(v.weight) && WidthOk(v.earlyPayment) && DepthOk(Some(v.latePayment))
            && (v.weight == "custom" ==> CustomWeightOk(Some(v.customWeight))))
    ensures v.productType != PassengerElevator ==> (r.Ok? <==> ContactOk(v))
    ensures r.Ok? ==>
      && r.value.(weight := v.weight) == v
      && r.value.weight == (if v.weight == "custom" then v.customWeight else v.weight)
      && (v.productType == PassengerElevator ==> NumberInRange(r.value.weight, 200, 10000))
    ensures r.Err? ==>
      r.error != {} && (forall f: Field :: f in r.error <==> f in Rejected(v) && Validated(v, f))
  {
    var rejected := VisibleRejected(v);
    VisibleRejectedEmptyIff(v);
    if rejected == {} then Ok(Normalise(v)) else Err(rejected)
  }

  /** Corrected: an escalator or moving walkway order submits exactly when
      its contact fields are valid. */
  lemma {:induction false} NonElevatorSubmits(v: FormValues)
    requires v.productType != PassengerElevator
    ensures Submit(v).Ok? <==> ContactOk(v)
  {
    var r := VisibleRejected(v);
    if ContactOk(v) {
      forall f: Field ensures f !in r {
        match f
        case CompanyName =>
        case PhoneNumber =>
        case PhoneExt =>
        case CompanyAddress =>
        case _ =>
      }
    } else {
      assert !NonEmpty(v.companyName) ==> CompanyName in r;
    }
  }

  /** Corrected: for a fixed tier the hidden custom weight does not matter,
      and an elevator order that submits carries a weight in [200, 10000]. */
  lemma {:induction false} ElevatorSubmitWeight(v: FormValues, customWeight: string)
    requires v.productType == PassengerElevator
    ensures v.weight != "custom" ==>
      (Submit(v).Ok? <==> Submit(v.(customWeight := customWeight)).Ok?)
    ensures Submit(v).Ok? ==> NumberInRange(Submit(v).value.weight, 200, 10000)
  {
    var w := v.(customWeight := customWeight);
    if v.weight != "custom" {
      assert VisibleRejected(v) == VisibleRejected(w);
    }
    if Submit(v).Ok? {
      assert Weight !in VisibleRejected(v);
      assert v.weight == "custom" ==> CustomWeight !in VisibleRejected(v);
    }
  }

  /** The corrected gate accepts everything the as-written schema accepts,
      and the example order as well. */
  lemma CorrectedGateWeaker(v: FormValues)
    ensures Rejected(v) == {} ==> Submit(v) == SubmitAsWritten(v)
    ensures Submit(ExampleOrder()).Ok?
  {
    ExampleOrderRefusedAsWritten();
    assert VisibleRejected(ExampleOrder()) <= Rejected(ExampleOrder()) - {CustomWeight};
  }

  // ---------------------------------------------------------------------
  // The form component's state, updated in place

  class OrderForm {
    var companyName: string
    var phoneNumber: string
    var phoneExt: string
    var companyAddress: string
    var serviceAddress: string
    var productType: ProductType
    var weight: string
    var customWeight: string
    var earlyPayment: string
    var latePayment: string
    var isCustomWeight: bool

    /** The values and flag this object holds. */
    function State(): UiState
      reads this
    {
      UiState(FormValues(companyName, phoneNumber, phoneExt, companyAddress, serviceAddress,
                         productType, weight, customWeight, earlyPayment, latePayment),
              isCustomWeight)
    }

    /** The defaults, followed by the effects' first run on mount. */
    constructor ()
      ensures State() == Mounted()
    {
      companyName, phoneNumber, phoneExt, companyAddress, serviceAddress := "", "", "", "", "";
      productType, weight, customWeight := PassengerElevator, "630", "";
      earlyPayment, latePayment := "", "";
      isCustomWeight := false;
      new;
      RunProductTypeEffect();
      RunWeightEffect(productType, weight);
    }

    /** The product-type effect. */
    method RunProductTypeEffect()
      modifies this
      ensures State() == ProductTypeReset(old(State()))
    {
      if productType == PassengerElevator {
        weight := "630";
        isCustomWeight := false;
      } else {
        weight := "";
        customWeight := "";
        earlyPayment := "";
        latePayment := "";
      }
    }

    /** The weight effect, with the product type and weight its render saw. */
    method RunWeightEffect(renderedType: ProductType, renderedWeight: string)
      modifies this
      ensures State() == WeightEffectRun(old(State()), renderedType, renderedWeight)
    {
      if renderedType == PassengerElevator {
        isCustomWeight := renderedWeight == "custom";
        var options := GetPaymentOptions(renderedType, renderedWeight);
        if options.early.Single? && options.early.value != "" {
          earlyPayment := options.early.value;
          latePayment := options.late.value;
        }
      }
    }

    /** The weight select's `onValueChange`. */
    method SelectWeight(value: string)
      modifies this
      ensures State() == WeightSelected(old(State()), value)
    {
      weight := value;
      isCustomWeight := value == "custom";
    }

    /** The product-type select's `onChange`. */
    method SelectProductType(t: ProductType)
      modifies this
      ensures State() == ProductTypeSelected(old(State()), t)
    {
      productType := t;
    }

    /** A text input's (or a dimension select's) `onChange`. */
    method EditText(f: TextInput, value: string)
      modifies this
      ensures State() == TextEdited(old(State()), f, value)
    {
      match f
      case CompanyNameInput => companyName := value;
      case PhoneNumberInput => phoneNumber := value;
      case PhoneExtInput => phoneExt := value;
      case CompanyAddressInput => companyAddress := value;
      case ServiceAddressInput => serviceAddress := value;
      case CustomWeightInput => customWeight := value;
      case WidthInput => earlyPayment := value;
      case DepthInput => latePayment := value;
    }

    /** A product-type selection followed by the effects it triggers. */
    method ChangeProductType(t: ProductType)
      modifies this
      ensures State() == ProductTypeChanged(old(State()), t)
    {
      if t != productType {
        var renderedWeight := weight;
        SelectProductType(t);
        RunProductTypeEffect();
        RunWeightEffect(t, renderedWeight);
        if weight != renderedWeight {
          RunWeightEffect(productType, weight);
        }
      }
    }

    /** A weight selection followed by the weight effect when it changed. */
    method ChangeWeight(value: string)
      modifies this
      ensures State() == WeightChanged(old(State()), value)
    {
      var changed := value != weight;
      SelectWeight(value);
      if changed {
        RunWeightEffect(productType, weight);
      }
    }
  }
}
