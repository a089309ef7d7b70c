/** The dealer entity: organisation number, vehicle count and premium flag. */
module Dealers {

  /** Java's 32-bit `int`. */
  newtype Int32 = x: int | -0x8000_0000 <= x < 0x8000_0000

  const TwoTo32: int := 0x1_0000_0000

  /** Java's `a + b` on `int`: the exact sum, wrapped around into 32 bits. */
  function WrapAdd(a: Int32, b: Int32): (r: Int32)
    ensures (a as int + b as int - r as int) % TwoTo32 == 0
    ensures -0x8000_0000 <= a as int + b as int < 0x8000_0000 ==> r as int == a as int + b as int
  {
    var s := a as int + b as int;
    if s >= 0x8000_0000 then (s - TwoTo32) as Int32
    else if s < -0x8000_0000 then (s + TwoTo32) as Int32
    else s as Int32
  }

  /** The value of a dealer's fields at one moment; this is what a repository stores. */
  datatype DealerRecord = DealerRecord(organisationNumber: string, ownedNumberOfVehicles: Int32, premiumCustomer: bool)

  class Dealer {
    const organisationNumber: string
    var ownedNumberOfVehicles: Int32
    var premiumCustomer: bool

    /** The dealer's current field values. */
    function Record(): DealerRecord
      reads this
    {
      DealerRecord(organisationNumber, ownedNumberOfVehicles, premiumCustomer)
    }

    /** A new dealer owns no vehicles and is not a premium customer. */
    constructor (organisationNumber: string)
      ensures Record() == DealerRecord(organisationNumber, 0, false)
    {
      this.organisationNumber := organisationNumber;
      ownedNumberOfVehicles := 0;
      premiumCustomer := false;
    }

    method SetPremiumCustomer(premiumCustomer: bool)
      modifies this
      ensures Record() == old(Record()).(premiumCustomer := premiumCustomer)
    {
      this.premiumCustomer := premiumCustomer;
    }

    /** `ownedNumberOfVehicles += delta`, with no lower bound and Java's wrap-around. */
    method ChangeNumberOfVehiclesBy(delta: Int32)
      modifies this
      ensures Record() == old(Record()).(ownedNumberOfVehicles := WrapAdd(old(ownedNumberOfVehicles), delta))
    {
      ownedNumberOfVehicles := WrapAdd(ownedNumberOfVehicles, delta);
    }

    /** Field-wise equality: two dealers are equal exactly when their records are. */
    function Equals(other: Dealer): (r: bool)
      reads this, other
      ensures r <==> Record() == other.Record()
    {
      ownedNumberOfVehicles == other.ownedNumberOfVehicles
      && premiumCustomer == other.premiumCustomer
      && organisationNumber == other.organisationNumber
    }
  }
}
