/** Vehicle brands and the membership test in a dealer's approved-brand list. */
module Brands {
  import opened Wrappers
  import opened Exceptions

  /** The brand values the core refers to. */
  datatype Brand = Volvo | Toyota | Lamborghini

  /** The one brand whose assignment makes the receiving dealer a premium customer. */
  const PremiumBrand: Brand := Lamborghini

  /**
   * `list.contains(item)` on a list built with `List.of`, the only kind of list
   * the core builds. Such a list holds no null, and asking it about null throws
   * NullPointerException; otherwise the elements are compared one by one.
   */
  function Contains(list: seq<Brand>, item: Option<Brand>): (r: Result<bool, Error>)
    ensures r.Failure? <==> item.None?
    ensures r.Failure? ==> r.error == NullPointer
    ensures r.Success? ==> (r.value <==> item.value in list)
  {
    match item
    case None => Failure(NullPointer)
    case Some(b) =>
      if list == [] then Success(false)
      else if list[0] == b then Success(true)
      else Contains(list[1..], item)
  }
}
