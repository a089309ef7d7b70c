/** The vehicle entity and the ownership-assignment rule it carries. */
module Vehicles {
  import opened Wrappers
  import opened Exceptions
  import opened Brands
  import opened Dealers

  /** The value of a vehicle's fields at one moment; this is what a repository stores. */
  datatype VehicleRecord = VehicleRecord(registration: string, owner: Option<string>, brand: Option<Brand>)

  /** The vehicle and the dealer as a successful assignment leaves them. */
  datatype Assigned = Assigned(vehicle: VehicleRecord, dealer: DealerRecord)

  /**
   * The ownership rule on values. Owning the vehicle already is a no-op; an
   * owner other than the dealer, or a brand the dealer is not approved for,
   * is refused; otherwise the dealer becomes the owner and, for the premium
   * brand, a premium customer.
   */
  function Assign(v: VehicleRecord, d: DealerRecord, approved: seq<Brand>): (r: Result<Assigned, Error>)
    ensures v.owner == Some(d.organisationNumber) ==> r == Success(Assigned(v, d))
    ensures r.Failure? <==>
              v.owner != Some(d.organisationNumber)
              && (v.owner.Some? || v.brand.None? || v.brand.value !in approved)
    ensures r.Failure? ==> r.error == if v.owner.None? && v.brand.None? then NullPointer else NotAllowed
    ensures r.Success? ==> r.value.vehicle == v.(owner := Some(d.organisationNumber))
    ensures r.Success? ==>
              r.value.dealer == d.(premiumCustomer := d.premiumCustomer || (v.owner.None? && v.brand == Some(PremiumBrand)))
  {
    if v.owner == Some(d.organisationNumber) then Success(Assigned(v, d))
    else if v.owner.Some? then Failure(NotAllowed)
    else match Contains(approved, v.brand)
      case Failure(e) => Failure(e)
      case Success(found) =>
        if !found then Failure(NotAllowed)
        else
          var dealer := if v.brand == Some(PremiumBrand) then d.(premiumCustomer := true) else d;
          Success(Assigned(v.(owner := Some(d.organisationNumber)), dealer))
  }

  /** Once a vehicle is owned, the approved-brand list plays no part in the decision. */
  lemma OwnershipDecidedBeforeBrand(v: VehicleRecord, d: DealerRecord, approved: seq<Brand>, other: seq<Brand>)
    requires v.owner.Some?
    ensures Assign(v, d, approved) == Assign(v, d, other)
    ensures v.owner != Some(d.organisationNumber) ==> Assign(v, d, approved) == Failure(NotAllowed)
  {
  }

  /** Assigning again what was just assigned changes nothing. */
  lemma AssignIdempotent(v: VehicleRecord, d: DealerRecord, approved: seq<Brand>)
    requires Assign(v, d, approved).Success?
    ensures var a := Assign(v, d, approved).value;
            Assign(a.vehicle, a.dealer, approved) == Success(a)
  {
  }

  class Vehicle {
    const registrationNumber: string
    var owner: Option<string>
    var brand: Option<Brand>

    /** The vehicle's current field values. */
    function Record(): VehicleRecord
      reads this
    {
      VehicleRecord(registrationNumber, owner, brand)
    }

    /** A new vehicle has a registration and neither owner nor brand. */
    constructor (registrationNumber: string)
      ensures Record() == VehicleRecord(registrationNumber, None, None)
    {
      this.registrationNumber := registrationNumber;
      owner := None;
      brand := None;
    }

    method SetOwner(owner: Option<string>)
      modifies this
      ensures Record() == old(Record()).(owner := owner)
    {
      this.owner := owner;
    }

    method SetBrand(brand: Option<Brand>)
      modifies this
      ensures Record() == old(Record()).(brand := brand)
    {
      this.brand := brand;
    }

    /**
     * Assigns this vehicle to `newOwner`, marking the dealer premium for the
     * premium brand. A refusal returns `Fail` with both objects untouched.
     */
    method AssignOwner(newOwner: Dealer, dealerApprovedBrands: seq<Brand>) returns (outcome: Outcome<Error>)
      modifies this, newOwner
      ensures match Assign(old(Record()), old(newOwner.Record()), dealerApprovedBrands)
              case Success(a) => outcome == Pass && Record() == a.vehicle && newOwner.Record() == a.dealer
              case Failure(e) => outcome == Fail(e) && Record() == old(Record()) && newOwner.Record() == old(newOwner.Record())
    {
      if owner == Some(newOwner.organisationNumber) {
        return Pass;
      }
      if owner.Some? {
        return Fail(NotAllowed);
      }
      var approved := Contains(dealerApprovedBrands, brand);
      if approved.Failure? {
        return Fail(approved.error);
      }
      if !approved.value {
        return Fail(NotAllowed);
      }
      owner := Some(newOwner.organisationNumber);
      if brand == Some(PremiumBrand) {
        newOwner.SetPremiumCustomer(true);
      }
      return Pass;
    }

    /** Field-wise equality: two vehicles are equal exactly when their records are. */
    function Equals(other: Vehicle): (r: bool)
      reads this, other
      ensures r <==> Record() == other.Record()
    {
      registrationNumber == other.registrationNumber
      && owner == other.owner
      && brand == other.brand
    }
  }
}
