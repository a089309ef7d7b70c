/**
 * The service's end-to-end scenarios on the map-backed repository: each one
 * stores a vehicle and a dealer, runs the service once, and reports what the
 * service answered and what the store holds afterwards.
 */
module ServiceScenarios {
  import opened Wrappers
  import opened Exceptions
  import opened Brands
  import opened Dealers
  import opened Vehicles
  import opened Repositories
  import opened Services

  const Registration: string := "ABC123"
  const OrgNumber: string := "123-456789"

  /**
   * Stores a vehicle and a fresh dealer in an empty repository, asks the
   * service to assign the vehicle to the dealer, and reads both back. What is
   * stored afterwards is what the entity's own rule makes of the two.
   */
  method Run(owner: Option<string>, brand: Option<Brand>, premium: bool)
    returns (outcome: Outcome<Error>, vehicle: VehicleRecord, dealer: DealerRecord)
    ensures var v := VehicleRecord(Registration, owner, brand);
            var d := DealerRecord(OrgNumber, 0, premium);
            match Assign(v, d, ApprovedBrandsOf(OrgNumber))
            case Success(a) => outcome == Pass && vehicle == a.vehicle && dealer == a.dealer
            case Failure(err) => outcome == Fail(err) && vehicle == v && dealer == d
  {
    var repo := new RepositoryFake();
    var sut := new VehicleService(repo);
    var v := new Vehicle(Registration);
    v.SetOwner(owner);
    v.SetBrand(brand);
    var d := new Dealer(OrgNumber);
    d.SetPremiumCustomer(premium);
    repo.SaveVehicle(v);
    repo.SaveDealer(d);
    ghost var s := repo.State();
    assert s == StoreState(map[Registration := v.Record()], map[OrgNumber := d.Record()]);
    outcome := sut.AssignOwner(OrgNumber, Registration);
    AgreesWithVehicleRule(s, ApprovedBrandsOf(OrgNumber), OrgNumber, Registration);
    vehicle := repo.vehicleMap[Registration];
    dealer := repo.dealerMap[OrgNumber];
  }

  /** A vehicle the dealer already owns, of no brand at all, is left as it was. */
  method AlreadyAssignedToNewOwner() returns (outcome: Outcome<Error>, vehicle: VehicleRecord, dealer: DealerRecord)
    ensures outcome == Pass
    ensures vehicle == VehicleRecord(Registration, Some(OrgNumber), None)
    ensures dealer == DealerRecord(OrgNumber, 0, false)
  {
    outcome, vehicle, dealer := Run(Some(OrgNumber), None, false);
  }

  /** A vehicle owned by another dealer is refused before its unset brand is looked at. */
  method AlreadyAssignedToDifferentOwner() returns (outcome: Outcome<Error>, vehicle: VehicleRecord, dealer: DealerRecord)
    ensures outcome == Fail(NotAllowed)
    ensures vehicle == VehicleRecord(Registration, Some("other-owner"), None)
    ensures dealer == DealerRecord(OrgNumber, 0, false)
  {
    outcome, vehicle, dealer := Run(Some("other-owner"), None, false);
  }

  /** A brand missing from the approved list is refused and the vehicle stays unowned. */
  method BrandNotApproved() returns (outcome: Outcome<Error>, vehicle: VehicleRecord, dealer: DealerRecord)
    ensures outcome == Fail(NotAllowed)
    ensures vehicle.owner == None
    ensures dealer == DealerRecord(OrgNumber, 0, false)
  {
    outcome, vehicle, dealer := Run(None, Some(Toyota), false);
  }

  /** A normal brand goes to a non-premium dealer, who stays non-premium. */
  method NormalVehicleToNonPremiumDealer() returns (outcome: Outcome<Error>, vehicle: VehicleRecord, dealer: DealerRecord)
    ensures outcome == Pass
    ensures vehicle == VehicleRecord(Registration, Some(OrgNumber), Some(Volvo))
    ensures dealer == DealerRecord(OrgNumber, 0, false)
  {
    outcome, vehicle, dealer := Run(None, Some(Volvo), false);
  }

  /** The premium brand makes a non-premium dealer premium. */
  method PremiumVehicleToNonPremiumDealer() returns (outcome: Outcome<Error>, vehicle: VehicleRecord, dealer: DealerRecord)
    ensures outcome == Pass
    ensures vehicle == VehicleRecord(Registration, Some(OrgNumber), Some(Lamborghini))
    ensures dealer == DealerRecord(OrgNumber, 0, true)
  {
    outcome, vehicle, dealer := Run(None, Some(Lamborghini), false);
  }

  /** A normal brand leaves a premium dealer premium. */
  method NormalVehicleToPremiumDealer() returns (outcome: Outcome<Error>, vehicle: VehicleRecord, dealer: DealerRecord)
    ensures outcome == Pass
    ensures vehicle == VehicleRecord(Registration, Some(OrgNumber), Some(Volvo))
    ensures dealer == DealerRecord(OrgNumber, 0, true)
  {
    outcome, vehicle, dealer := Run(None, Some(Volvo), true);
  }

  /** The premium brand leaves a premium dealer premium. */
  method PremiumVehicleToPremiumDealer() returns (outcome: Outcome<Error>, vehicle: VehicleRecord, dealer: DealerRecord)
    ensures outcome == Pass
    ensures vehicle == VehicleRecord(Registration, Some(OrgNumber), Some(Lamborghini))
    ensures dealer == DealerRecord(OrgNumber, 0, true)
  {
    outcome, vehicle, dealer := Run(None, Some(Lamborghini), true);
  }
}
