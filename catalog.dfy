/** The closed option sets shared by both order forms. */
module Catalog {
  import opened Wrappers

  /** The product-type select: 客梯 (passenger elevator), 自动扶梯
      (escalator), 自动人行道 (moving walkway). */
  datatype ProductType = PassengerElevator | Escalator | MovingWalkway {

    /** The option's value as the select writes it into the form. */
    function Name(): string {
      match this
      case PassengerElevator => "客梯"
      case Escalator => "自动扶梯"
      case MovingWalkway => "自动人行道"
    }
  }

  /** `z.enum(["客梯", "自动扶梯", "自动人行道"])`: a raw string is a product
      type exactly when it is one of the three option values. */
  function ProductTypeFromName(s: string): (r: Option<ProductType>)
    ensures r.Some? ==> r.value.Name() == s
  {
    if s == "客梯" then Some(PassengerElevator)
    else if s == "自动扶梯" then Some(Escalator)
    else if s == "自动人行道" then Some(MovingWalkway)
    else None
  }

  lemma ProductTypeNameRoundTrip(t: ProductType)
    ensures ProductTypeFromName(t.Name()) == Some(t)
  {
  }

  /** Cabin width and depth in millimetres, as the strings the form holds. */
  datatype Dimensions = Dimensions(width: string, depth: string)
}
