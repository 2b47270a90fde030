/** How the two order forms compare: where their dimension tables, weight
    options and validators agree, and where they part ways. */
module Variants {
  import opened Wrappers
  import opened FormText
  import opened Catalog
  import CompanyForm
  import AppCompanyForm

  /** Both variants give 630 the pair (1100, 1400) and 1000 the pair
      (1200, 2100); the second variant's 1250 pair is the first entry of each
      of the first variant's two 1250 option lists. */
  lemma TierTablesAgree()
    ensures forall w :: w == "630" || w == "1000" ==>
      CompanyForm.GetPaymentOptions(PassengerElevator, w)
        == CompanyForm.PaymentOptions(CompanyForm.Single(AppCompanyForm.TierDimensions(w).width),
                                      CompanyForm.Single(AppCompanyForm.TierDimensions(w).depth))
    ensures var o := CompanyForm.GetPaymentOptions(PassengerElevator, "1250");
      o.early.OneOf? && o.late.OneOf?
      && AppCompanyForm.TierDimensions("1250") == Dimensions(o.early.values[0], o.late.values[0])
  {
    CompanyForm.PaymentOptionsTable("1250");
  }

  /** The second variant's weight enumeration is exactly the first variant's
      list of weight options. */
  lemma WeightOptionsAgree(s: string)
    ensures AppCompanyForm.WeightOk(s) <==> s in CompanyForm.WeightOptions()
  {
  }

  /** After mounting, the first variant shows the dimensions the second one
      has as defaults. */
  lemma InitialDimensionsAgree()
    ensures var v := CompanyForm.Mounted().values;
      v.productType == AppCompanyForm.DefaultValues.productType
      && v.weight == AppCompanyForm.DefaultValues.weight
      && Dimensions(v.earlyPayment, v.latePayment)
         == Dimensions(AppCompanyForm.DefaultValues.width, AppCompanyForm.DefaultValues.depth)
  {
    CompanyForm.MountedValues();
  }

  /** Choosing 1250 right after mounting: the first variant keeps (1100,
      1400), whose width is not among its 1250 width options; the second
      variant writes (1200, 2100). */
  lemma Tier1250Diverges()
    ensures var r := CompanyForm.WeightChanged(CompanyForm.Mounted(), "1250");
      Dimensions(r.values.earlyPayment, r.values.latePayment) == Dimensions("1100", "1400")
      && r.values.earlyPayment !in ["1200", "1600"] && r.values.latePayment in ["2100", "1400"]
    ensures AppCompanyForm.TierDimensions("1250") == Dimensions("1200", "2100")
  {
    CompanyForm.MountedValues();
    CompanyForm.WeightChangedOutcome(CompanyForm.Mounted(), "1250");
  }

  /** The two custom-weight checks agree on every decimal number. */
  lemma CustomWeightChecksAgree(n: nat)
    ensures CompanyForm.CustomWeightOk(Some(DecimalString(n))) <==> AppCompanyForm.CustomWeightOk(Some(n))
  {
    CompanyForm.RangeChecksOnNumbers(n);
  }

  /** Both use the same phone pattern; the first variant lets the extension
      be empty, the second requires at least one digit, and on a non-empty
      extension they agree. */
  lemma ContactChecksCompared(phone: string, ext: string)
    ensures AppCompanyForm.PhoneNumberOk(Some(phone)) <==> PhonePattern(phone)
    ensures CompanyForm.PhoneExtOk(Some("")) && !AppCompanyForm.PhoneExtOk(Some(""))
    ensures ext != "" ==> (CompanyForm.PhoneExtOk(Some(ext)) <==> AppCompanyForm.PhoneExtOk(Some(ext)))
  {
  }
}
