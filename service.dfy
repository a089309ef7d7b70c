/**
 * The assignment service: looks the vehicle up, applies the ownership rule
 * (written out again rather than calling `Vehicle.AssignOwner`), looks the
 * dealer up, and saves what the rule changed.
 */
module Services {
  import opened Wrappers
  import opened Exceptions
  import opened Brands
  import opened Dealers
  import opened Vehicles
  import opened Repositories

  /** What one call of the service answers and which repository calls it makes, in order. */
  datatype Effect = Effect(outcome: Outcome<Error>, calls: seq<Call>)

  /** The service's behaviour on a store in state `s` whose approved-brand query answers `approved`. */
  function AssignOwnerEffect(s: StoreState, approved: seq<Brand>, ownerOrgNumber: string, vehicleRegistration: string): (e: Effect)
    ensures e.calls != [] && e.calls[0] == VehicleLookup(vehicleRegistration)
    ensures e.outcome.Fail? ==> forall i | 0 <= i < |e.calls| :: !e.calls[i].IsSave()
  {
    if vehicleRegistration !in s.vehicles then Effect(Fail(NotFound), [VehicleLookup(vehicleRegistration)])
    else
      var v := s.vehicles[vehicleRegistration];
      if v.owner == Some(ownerOrgNumber) then Effect(Pass, [VehicleLookup(vehicleRegistration)])
      else if v.owner.Some? then Effect(Fail(NotAllowed), [VehicleLookup(vehicleRegistration)])
      else
        var checked := [VehicleLookup(vehicleRegistration), BrandsQuery(ownerOrgNumber)];
        match Contains(approved, v.brand)
        case Failure(err) => Effect(Fail(err), checked)
        case Success(found) =>
          if !found then Effect(Fail(NotAllowed), checked)
          else if ownerOrgNumber !in s.dealers then Effect(Fail(NotFound), checked + [DealerLookup(ownerOrgNumber)])
          else
            var d := s.dealers[ownerOrgNumber];
            var dealerSave := if v.brand == Some(PremiumBrand) then [DealerSaved(d.(premiumCustomer := true))] else [];
            Effect(Pass, checked + [DealerLookup(ownerOrgNumber)] + dealerSave + [VehicleSaved(v.(owner := Some(ownerOrgNumber)))])
  }

  /** A missing vehicle is reported before any other repository call, and nothing is saved. */
  lemma MissingVehicleIsNotFound(s: StoreState, approved: seq<Brand>, ownerOrgNumber: string, vehicleRegistration: string)
    requires vehicleRegistration !in s.vehicles
    ensures AssignOwnerEffect(s, approved, ownerOrgNumber, vehicleRegistration)
            == Effect(Fail(NotFound), [VehicleLookup(vehicleRegistration)])
  {
  }

  /** A vehicle the dealer already owns is left alone: no brand query, no dealer lookup, no save. */
  lemma AlreadyOwnedIsNoOp(s: StoreState, approved: seq<Brand>, ownerOrgNumber: string, vehicleRegistration: string)
    requires vehicleRegistration in s.vehicles && s.vehicles[vehicleRegistration].owner == Some(ownerOrgNumber)
    ensures AssignOwnerEffect(s, approved, ownerOrgNumber, vehicleRegistration)
            == Effect(Pass, [VehicleLookup(vehicleRegistration)])
  {
  }

  /** A vehicle owned by someone else is refused whatever its brand, before any other call. */
  lemma OwnedByOtherIsNotAllowed(s: StoreState, approved: seq<Brand>, ownerOrgNumber: string, vehicleRegistration: string)
    requires vehicleRegistration in s.vehicles
    requires s.vehicles[vehicleRegistration].owner.Some? && s.vehicles[vehicleRegistration].owner != Some(ownerOrgNumber)
    ensures AssignOwnerEffect(s, approved, ownerOrgNumber, vehicleRegistration)
            == Effect(Fail(NotAllowed), [VehicleLookup(vehicleRegistration)])
  {
  }

  /** An unowned vehicle of a brand outside the approved list is refused before the dealer is looked up. */
  lemma UnapprovedBrandIsNotAllowed(s: StoreState, approved: seq<Brand>, ownerOrgNumber: string, vehicleRegistration: string)
    requires vehicleRegistration in s.vehicles
    requires var v := s.vehicles[vehicleRegistration]; v.owner.None? && v.brand.Some? && v.brand.value !in approved
    ensures AssignOwnerEffect(s, approved, ownerOrgNumber, vehicleRegistration)
            == Effect(Fail(NotAllowed), [VehicleLookup(vehicleRegistration), BrandsQuery(ownerOrgNumber)])
  {
  }

  /** A missing dealer is reported exactly when the vehicle exists and passes the ownership and brand checks. */
  lemma MissingDealerIsReportedLast(s: StoreState, approved: seq<Brand>, ownerOrgNumber: string, vehicleRegistration: string)
    requires vehicleRegistration in s.vehicles
    ensures var e := AssignOwnerEffect(s, approved, ownerOrgNumber, vehicleRegistration);
            var v := s.vehicles[vehicleRegistration];
            e.outcome == Fail(NotFound) <==>
              v.owner.None? && v.brand.Some? && v.brand.value in approved && ownerOrgNumber !in s.dealers
  {
  }

  /**
   * A successful assignment of an unowned vehicle saves the dealer, marked
   * premium, exactly when the brand is the premium brand, and saves the dealer
   * before it saves the vehicle, now owned by the dealer.
   */
  lemma AssignmentWrites(s: StoreState, approved: seq<Brand>, ownerOrgNumber: string, vehicleRegistration: string)
    requires vehicleRegistration in s.vehicles && s.vehicles[vehicleRegistration].owner.None?
    requires AssignOwnerEffect(s, approved, ownerOrgNumber, vehicleRegistration).outcome == Pass
    ensures var e := AssignOwnerEffect(s, approved, ownerOrgNumber, vehicleRegistration);
            var v := s.vehicles[vehicleRegistration];
            && ownerOrgNumber in s.dealers
            && e.calls[..3] == [VehicleLookup(vehicleRegistration), BrandsQuery(ownerOrgNumber), DealerLookup(ownerOrgNumber)]
            && e.calls[|e.calls| - 1] == VehicleSaved(v.(owner := Some(ownerOrgNumber)))
            && (v.brand == Some(PremiumBrand) <==> |e.calls| == 5)
            && (v.brand == Some(PremiumBrand) ==> e.calls[3] == DealerSaved(s.dealers[ownerOrgNumber].(premiumCustomer := true)))
            && (v.brand != Some(PremiumBrand) ==> |e.calls| == 4)
  {
  }

  /** A refused or unresolvable assignment leaves the store as it was. */
  lemma FailureLeavesStoreUnchanged(s: StoreState, approved: seq<Brand>, ownerOrgNumber: string, vehicleRegistration: string)
    requires AssignOwnerEffect(s, approved, ownerOrgNumber, vehicleRegistration).outcome.Fail?
    ensures Replay(s, AssignOwnerEffect(s, approved, ownerOrgNumber, vehicleRegistration).calls) == s
  {
    ReplayWithoutSaves(s, AssignOwnerEffect(s, approved, ownerOrgNumber, vehicleRegistration).calls);
  }

  /** The three lookups of a call that gets as far as the dealer leave the store as it was. */
  lemma ReplayLookups(s: StoreState, ownerOrgNumber: string, vehicleRegistration: string)
    ensures Replay(s, [VehicleLookup(vehicleRegistration), BrandsQuery(ownerOrgNumber), DealerLookup(ownerOrgNumber)]) == s
  {
    ReplayWithoutSaves(s, [VehicleLookup(vehicleRegistration), BrandsQuery(ownerOrgNumber), DealerLookup(ownerOrgNumber)]);
  }

  /** Replaying the saves of an assignment files the updated records under their keys. */
  lemma ReplayAssignmentSaves(s: StoreState, v: VehicleRecord, d: DealerRecord, ownerOrgNumber: string)
    requires d.organisationNumber == ownerOrgNumber
    ensures var d' := if v.brand == Some(PremiumBrand) then d.(premiumCustomer := true) else d;
            Replay(s, AssignmentSaves(v, d, ownerOrgNumber))
            == StoreState(s.vehicles[v.registration := v.(owner := Some(ownerOrgNumber))],
                          if v.brand == Some(PremiumBrand) then s.dealers[ownerOrgNumber := d'] else s.dealers)
  {
    var v' := v.(owner := Some(ownerOrgNumber));
    if v.brand == Some(PremiumBrand) {
      var d' := d.(premiumCustomer := true);
      var first := [DealerSaved(d')];
      assert first[..0] == [];
      assert Replay(s, first) == Apply(Replay(s, []), DealerSaved(d'));
      var mid := Replay(s, first);
      assert mid == StoreState(s.vehicles, s.dealers[ownerOrgNumber := d']);
      assert AssignmentSaves(v, d, ownerOrgNumber) == first + [VehicleSaved(v')];
      ReplaySnoc(s, first, VehicleSaved(v'));
    } else {
      var only := [VehicleSaved(v')];
      assert only[..0] == [];
      assert Replay(s, only) == Apply(Replay(s, []), VehicleSaved(v'));
      assert AssignmentSaves(v, d, ownerOrgNumber) == only;
    }
  }


  /** The writes of a successful assignment of an unowned vehicle file the rule's records under their keys. */
  lemma AssignedWritesAgree(s: StoreState, approved: seq<Brand>, ownerOrgNumber: string, vehicleRegistration: string)
    requires s.Keyed()
    requires vehicleRegistration in s.vehicles && ownerOrgNumber in s.dealers
    requires s.vehicles[vehicleRegistration].owner.None?
    requires Assign(s.vehicles[vehicleRegistration], s.dealers[ownerOrgNumber], approved).Success?
    ensures var a := Assign(s.vehicles[vehicleRegistration], s.dealers[ownerOrgNumber], approved).value;
            var e := AssignOwnerEffect(s, approved, ownerOrgNumber, vehicleRegistration);
            && e.outcome == Pass
            && Replay(s, e.calls) == StoreState(s.vehicles[vehicleRegistration := a.vehicle], s.dealers[ownerOrgNumber := a.dealer])
  {
    var v := s.vehicles[vehicleRegistration];
    var d := s.dealers[ownerOrgNumber];
    assert v.registration == vehicleRegistration;
    assert d.organisationNumber == ownerOrgNumber;
    AssignedReplay(s, approved, ownerOrgNumber, vehicleRegistration, AssignmentSaves(v, d, ownerOrgNumber));
    ReplayAssignmentSaves(s, v, d, ownerOrgNumber);
    if v.brand != Some(PremiumBrand) {
      assert s.dealers[ownerOrgNumber := d] == s.dealers;
    }
  }

  /**
   * When the vehicle and the dealer both exist, the service leaves them in the
   * store exactly as the entity's own rule leaves them, and fails exactly when
   * and how the rule fails.
   */
  lemma AgreesWithVehicleRule(s: StoreState, approved: seq<Brand>, ownerOrgNumber: string, vehicleRegistration: string)
    requires s.Keyed()
    requires vehicleRegistration in s.vehicles && ownerOrgNumber in s.dealers
    ensures var e := AssignOwnerEffect(s, approved, ownerOrgNumber, vehicleRegistration);
            match Assign(s.vehicles[vehicleRegistration], s.dealers[ownerOrgNumber], approved)
            case Success(a) =>
              && e.outcome == Pass
              && Replay(s, e.calls) == StoreState(s.vehicles[vehicleRegistration := a.vehicle], s.dealers[ownerOrgNumber := a.dealer])
            case Failure(err) =>
              e.outcome == Fail(err) && Replay(s, e.calls) == s
  {
    var v := s.vehicles[vehicleRegistration];
    var d := s.dealers[ownerOrgNumber];
    assert d.organisationNumber == ownerOrgNumber;
    var r := Assign(v, d, approved);
    var e := AssignOwnerEffect(s, approved, ownerOrgNumber, vehicleRegistration);
    if r.Failure? {
      assert e.outcome == Fail(r.error);
      FailureLeavesStoreUnchanged(s, approved, ownerOrgNumber, vehicleRegistration);
    } else if v.owner.Some? {
      assert e == Effect(Pass, [VehicleLookup(vehicleRegistration)]);
      ReplayWithoutSaves(s, e.calls);
      assert s.vehicles[vehicleRegistration := v] == s.vehicles;
      assert s.dealers[ownerOrgNumber := d] == s.dealers;
    } else {
      AssignedWritesAgree(s, approved, ownerOrgNumber, vehicleRegistration);
    }
  }

  /** After a successful call the stored vehicle is owned by the dealer; a premium dealer stays premium. */
  lemma StoredAfterSuccess(s: StoreState, approved: seq<Brand>, ownerOrgNumber: string, vehicleRegistration: string)
    requires s.Keyed()
    requires AssignOwnerEffect(s, approved, ownerOrgNumber, vehicleRegistration).outcome == Pass
    ensures var s' := Replay(s, AssignOwnerEffect(s, approved, ownerOrgNumber, vehicleRegistration).calls);
            && vehicleRegistration in s'.vehicles
            && s'.vehicles[vehicleRegistration].owner == Some(ownerOrgNumber)
            && (ownerOrgNumber in s.dealers && s.dealers[ownerOrgNumber].premiumCustomer ==>
                  ownerOrgNumber in s'.dealers && s'.dealers[ownerOrgNumber].premiumCustomer)
  {
    var v := s.vehicles[vehicleRegistration];
    if v.owner.None? {
      AgreesWithVehicleRule(s, approved, ownerOrgNumber, vehicleRegistration);
    } else {
      ReplayWithoutSaves(s, AssignOwnerEffect(s, approved, ownerOrgNumber, vehicleRegistration).calls);
    }
  }

  /** The effect of a call refused at the brand check (helper for the service method). */
  lemma BrandRefusedEffect(s: StoreState, approved: seq<Brand>, ownerOrgNumber: string, vehicleRegistration: string)
    requires vehicleRegistration in s.vehicles && s.vehicles[vehicleRegistration].owner.None?
    requires var c := Contains(approved, s.vehicles[vehicleRegistration].brand); c.Failure? || !c.value
    ensures var c := Contains(approved, s.vehicles[vehicleRegistration].brand);
            AssignOwnerEffect(s, approved, ownerOrgNumber, vehicleRegistration)
            == Effect(if c.Failure? then Fail(c.error) else Fail(NotAllowed), [VehicleLookup(vehicleRegistration), BrandsQuery(ownerOrgNumber)])
  {
  }

  /** The effect of a call that passes both checks and finds no dealer (helper for the service method). */
  lemma MissingDealerEffect(s: StoreState, approved: seq<Brand>, ownerOrgNumber: string, vehicleRegistration: string)
    requires vehicleRegistration in s.vehicles && s.vehicles[vehicleRegistration].owner.None?
    requires var c := Contains(approved, s.vehicles[vehicleRegistration].brand); c.Success? && c.value
    requires ownerOrgNumber !in s.dealers
    ensures AssignOwnerEffect(s, approved, ownerOrgNumber, vehicleRegistration)
            == Effect(Fail(NotFound), [VehicleLookup(vehicleRegistration), BrandsQuery(ownerOrgNumber), DealerLookup(ownerOrgNumber)])
  {
  }

  /** Regrouping of a call log, kept apart so that `VehicleService.AssignOwner` need not prove it among its own facts. */
  lemma AppendAssociative(a: seq<Call>, b: seq<Call>, c: seq<Call>)
    ensures (a + b) + c == a + (b + c)
  {
  }

  /** The saves of a successful assignment of the unowned vehicle `v` to the dealer `d`, in order. */
  function AssignmentSaves(v: VehicleRecord, d: DealerRecord, ownerOrgNumber: string): seq<Call>
  {
    (if v.brand == Some(PremiumBrand) then [DealerSaved(d.(premiumCustomer := true))] else [])
    + [VehicleSaved(v.(owner := Some(ownerOrgNumber)))]
  }

  /** A call that passes both checks and finds the dealer makes three lookups and then its saves (helper for the service method). */
  lemma AssignedReplay(s: StoreState, approved: seq<Brand>, ownerOrgNumber: string, vehicleRegistration: string, saves: seq<Call>)
    requires vehicleRegistration in s.vehicles && s.vehicles[vehicleRegistration].owner.None?
    requires var c := Contains(approved, s.vehicles[vehicleRegistration].brand); c.Success? && c.value
    requires ownerOrgNumber in s.dealers
    requires saves == AssignmentSaves(s.vehicles[vehicleRegistration], s.dealers[ownerOrgNumber], ownerOrgNumber)
    ensures var e := AssignOwnerEffect(s, approved, ownerOrgNumber, vehicleRegistration);
            var checked := [VehicleLookup(vehicleRegistration), BrandsQuery(ownerOrgNumber), DealerLookup(ownerOrgNumber)];
            && e == Effect(Pass, checked + saves)
            && Replay(s, e.calls) == Replay(s, saves)
  {
    var v := s.vehicles[vehicleRegistration];
    var d := s.dealers[ownerOrgNumber];
    var dealerSave := if v.brand == Some(PremiumBrand) then [DealerSaved(d.(premiumCustomer := true))] else [];
    var checked := [VehicleLookup(vehicleRegistration), BrandsQuery(ownerOrgNumber), DealerLookup(ownerOrgNumber)];
    assert saves == dealerSave + [VehicleSaved(v.(owner := Some(ownerOrgNumber)))];
    assert AssignOwnerEffect(s, approved, ownerOrgNumber, vehicleRegistration)
        == Effect(Pass, [VehicleLookup(vehicleRegistration), BrandsQuery(ownerOrgNumber)] + [DealerLookup(ownerOrgNumber)]
                        + dealerSave + [VehicleSaved(v.(owner := Some(ownerOrgNumber)))]);
    assert [VehicleLookup(vehicleRegistration), BrandsQuery(ownerOrgNumber)] + [DealerLookup(ownerOrgNumber)]
           + dealerSave + [VehicleSaved(v.(owner := Some(ownerOrgNumber)))] == checked + saves;
    ReplayLookups(s, ownerOrgNumber, vehicleRegistration);
    ReplayConcat(s, checked, saves);
  }

  class VehicleService {
    const repo: RepositoryFake

    constructor (repo: RepositoryFake)
      ensures this.repo == repo
    {
      this.repo := repo;
    }

    /** Assigns the vehicle registered as `vehicleRegistration` to the dealer `ownerOrgNumber`. */
    method AssignOwner(ownerOrgNumber: string, vehicleRegistration: string) returns (outcome: Outcome<Error>)
      requires repo.Valid()
      modifies repo
      ensures repo.Valid()
      ensures var e := AssignOwnerEffect(old(repo.State()), ApprovedBrandsOf(ownerOrgNumber), ownerOrgNumber, vehicleRegistration);
              && outcome == e.outcome
              && repo.calls == old(repo.calls) + e.calls
              && repo.State() == Replay(old(repo.State()), e.calls)
    {
      ghost var s0 := repo.State();
      ghost var brands := ApprovedBrandsOf(ownerOrgNumber);
      var found := GetVehicleIfExists(vehicleRegistration);
      if found.Failure? {
        MissingVehicleIsNotFound(s0, brands, ownerOrgNumber, vehicleRegistration);
        FailureLeavesStoreUnchanged(s0, brands, ownerOrgNumber, vehicleRegistration);
        return Fail(found.error);
      }
      var vehicle := found.value;
      ghost var v := vehicle.Record();
      if vehicle.owner == Some(ownerOrgNumber) {
        AlreadyOwnedIsNoOp(s0, brands, ownerOrgNumber, vehicleRegistration);
        ReplayWithoutSaves(s0, [VehicleLookup(vehicleRegistration)]);
        return Pass;
      }
      if vehicle.owner.Some? {
        OwnedByOtherIsNotAllowed(s0, brands, ownerOrgNumber, vehicleRegistration);
        FailureLeavesStoreUnchanged(s0, brands, ownerOrgNumber, vehicleRegistration);
        return Fail(NotAllowed);
      }
      var approvedBrands := repo.GetApprovedBrands(ownerOrgNumber);
      var approved := Contains(approvedBrands, vehicle.brand);
      if approved.Failure? || !approved.value {
        BrandRefusedEffect(s0, brands, ownerOrgNumber, vehicleRegistration);
        FailureLeavesStoreUnchanged(s0, brands, ownerOrgNumber, vehicleRegistration);
        return if approved.Failure? then Fail(approved.error) else Fail(NotAllowed);
      }
      var dealer := GetDealerIfExists(ownerOrgNumber);
      if dealer.Failure? {
        MissingDealerEffect(s0, brands, ownerOrgNumber, vehicleRegistration);
        FailureLeavesStoreUnchanged(s0, brands, ownerOrgNumber, vehicleRegistration);
        return Fail(dealer.error);
      }
      ghost var checked := [VehicleLookup(vehicleRegistration), BrandsQuery(ownerOrgNumber), DealerLookup(ownerOrgNumber)];
      assert repo.calls == old(repo.calls) + checked;
      assert repo.State() == s0;
      var newOwner := dealer.value;
      ghost var saves := SaveAssignment(vehicle, newOwner, ownerOrgNumber, v, newOwner.Record());
      AssignedReplay(s0, brands, ownerOrgNumber, vehicleRegistration, saves);
      AppendAssociative(old(repo.calls), checked, saves);
      return Pass;
    }

    /**
     * The writes of a successful assignment: the vehicle gets its owner; for
     * the premium brand the dealer becomes premium and is saved; then the
     * vehicle is saved. `saves` are the calls made, in order.
     */
    method SaveAssignment(vehicle: Vehicle, newOwner: Dealer, ownerOrgNumber: string, ghost v: VehicleRecord, ghost d: DealerRecord)
      returns (ghost saves: seq<Call>)
      requires repo.Valid()
      requires vehicle.Record() == v && newOwner.Record() == d
      modifies repo, vehicle, newOwner
      ensures vehicle.Record() == v.(owner := Some(ownerOrgNumber))
      ensures newOwner.Record() == if v.brand == Some(PremiumBrand) then d.(premiumCustomer := true) else d
      ensures repo.Valid()
      ensures saves == AssignmentSaves(v, d, ownerOrgNumber)
      ensures repo.calls == old(repo.calls) + saves
      ensures repo.State() == Replay(old(repo.State()), saves)
    {
      ghost var s0 := repo.State();
      vehicle.SetOwner(Some(ownerOrgNumber));
      saves := [];
      if vehicle.brand == Some(PremiumBrand) {
        newOwner.SetPremiumCustomer(true);
        repo.SaveDealer(newOwner);
        ReplaySnoc(s0, [], DealerSaved(newOwner.Record()));
        saves := [DealerSaved(newOwner.Record())];
      }
      repo.SaveVehicle(vehicle);
      ReplaySnoc(s0, saves, VehicleSaved(vehicle.Record()));
      saves := saves + [VehicleSaved(vehicle.Record())];
    }

    /** The stored vehicle as a fresh entity, or NotFound. */
    method GetVehicleIfExists(registration: string) returns (r: Result<Vehicle, Error>)
      requires repo.Valid()
      modifies repo`calls
      ensures repo.calls == old(repo.calls) + [VehicleLookup(registration)]
      ensures r.Failure? <==> registration !in repo.vehicleMap
      ensures r.Failure? ==> r.error == NotFound
      ensures r.Success? ==> fresh(r.value) && r.value.Record() == repo.vehicleMap[registration]
    {
      var vehicle := repo.GetVehicleByRegistration(registration);
      if vehicle.None? {
        return Failure(NotFound);
      }
      return Success(vehicle.value);
    }

    /** The stored dealer as a fresh entity, or NotFound. */
    method GetDealerIfExists(orgNumber: string) returns (r: Result<Dealer, Error>)
      requires repo.Valid()
      modifies repo`calls
      ensures repo.calls == old(repo.calls) + [DealerLookup(orgNumber)]
      ensures r.Failure? <==> orgNumber !in repo.dealerMap
      ensures r.Failure? ==> r.error == NotFound
      ensures r.Success? ==> fresh(r.value) && r.value.Record() == repo.dealerMap[orgNumber]
    {
      var dealer := repo.GetDealerByOrgNumber(orgNumber);
      if dealer.None? {
        return Failure(NotFound);
      }
      return Success(dealer.value);
    }
  }
}
