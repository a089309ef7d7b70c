/**
 * The repository contract (two lookups, one approved-brand query, two saves)
 * and the map-backed store that implements it for the service's tests.
 */
module Repositories {
  import opened Wrappers
  import opened Brands
  import opened Dealers
  import opened Vehicles

  /** One call on the repository contract. */
  datatype Call =
    | VehicleLookup(registration: string)
    | DealerLookup(orgNumber: string)
    | BrandsQuery(ownerOrgNumber: string)
    | VehicleSaved(vehicle: VehicleRecord)
    | DealerSaved(dealer: DealerRecord)
  {
    predicate IsSave() {
      VehicleSaved? || DealerSaved?
    }
  }

  /** The two maps of the store: vehicles by registration, dealers by organisation number. */
  datatype StoreState = StoreState(vehicles: map<string, VehicleRecord>, dealers: map<string, DealerRecord>)
  {
    /** Every entry is filed under its own identifier, as saves always file them. */
    ghost predicate Keyed() {
      && (forall reg | reg in vehicles :: vehicles[reg].registration == reg)
      && (forall org | org in dealers :: dealers[org].organisationNumber == org)
    }
  }

  /** What one call does to the store: a save puts the record under its identifier; a lookup changes nothing. */
  function Apply(s: StoreState, c: Call): (r: StoreState)
    ensures s.Keyed() ==> r.Keyed()
    ensures c.VehicleSaved? ==> r.vehicles.Keys == s.vehicles.Keys + {c.vehicle.registration}
    ensures c.DealerSaved? ==> r.dealers.Keys == s.dealers.Keys + {c.dealer.organisationNumber}
  {
    match c
    case VehicleSaved(v) => s.(vehicles := s.vehicles[v.registration := v])
    case DealerSaved(d) => s.(dealers := s.dealers[d.organisationNumber := d])
    case _ => s
  }

  /** The store after a sequence of calls, the first call applied first. */
  function Replay(s: StoreState, calls: seq<Call>): StoreState
    decreases |calls|
  {
    if calls == [] then s else Apply(Replay(s, calls[..|calls| - 1]), calls[|calls| - 1])
  }

  lemma ReplaySnoc(s: StoreState, calls: seq<Call>, c: Call)
    ensures Replay(s, calls + [c]) == Apply(Replay(s, calls), c)
  {
    assert (calls + [c])[..|calls|] == calls;
  }

  /** Replaying two logs one after the other is replaying their concatenation. */
  lemma {:induction false} ReplayConcat(s: StoreState, first: seq<Call>, rest: seq<Call>)
    ensures Replay(s, first + rest) == Replay(Replay(s, first), rest)
    decreases |rest|
  {
    if rest == [] {
      assert first + rest == first;
    } else {
      var last := rest[|rest| - 1];
      var init := rest[..|rest| - 1];
      assert first + rest == (first + init) + [last];
      assert rest == init + [last];
      ReplaySnoc(s, first + init, last);
      ReplaySnoc(Replay(s, first), init, last);
      ReplayConcat(s, first, init);
    }
  }

  /** Calls that save nothing leave the store as it was. */
  lemma {:induction false} ReplayWithoutSaves(s: StoreState, calls: seq<Call>)
    requires forall i | 0 <= i < |calls| :: !calls[i].IsSave()
    ensures Replay(s, calls) == s
  {
    if calls != [] {
      ReplayWithoutSaves(s, calls[..|calls| - 1]);
    }
  }

  /** No sequence of calls can file an entry under a key other than its own identifier. */
  lemma {:induction false} ReplayKeepsKeyed(s: StoreState, calls: seq<Call>)
    requires s.Keyed()
    ensures Replay(s, calls).Keyed()
  {
    if calls != [] {
      ReplayKeepsKeyed(s, calls[..|calls| - 1]);
    }
  }

  /** The approved-brand list of the test store: the same for every dealer. */
  function ApprovedBrandsOf(ownerOrgNumber: string): (r: seq<Brand>)
    ensures Volvo in r && Lamborghini in r && Toyota !in r
    ensures |r| == 2 && r[0] != r[1]
  {
    [Volvo, Lamborghini]
  }

  /**
   * The map-backed repository. It stores values: a lookup returns a fresh
   * entity rebuilt from the stored record, and only a save changes the maps.
   * `calls` records every call made on it, in order.
   */
  class RepositoryFake {
    var vehicleMap: map<string, VehicleRecord>
    var dealerMap: map<string, DealerRecord>
    ghost var calls: seq<Call>

    function State(): StoreState
      reads this`vehicleMap, this`dealerMap
    {
      StoreState(vehicleMap, dealerMap)
    }

    ghost predicate Valid()
      reads this`vehicleMap, this`dealerMap
    {
      State().Keyed()
    }

    constructor ()
      ensures Valid() && State() == StoreState(map[], map[]) && calls == []
    {
      vehicleMap := map[];
      dealerMap := map[];
      calls := [];
    }

    /** Absent unless a vehicle was saved under `registration`. */
    method GetVehicleByRegistration(registration: string) returns (r: Option<Vehicle>)
      requires Valid()
      modifies this`calls
      ensures calls == old(calls) + [VehicleLookup(registration)]
      ensures r.None? <==> registration !in vehicleMap
      ensures r.Some? ==> fresh(r.value) && r.value.Record() == vehicleMap[registration]
      ensures r.Some? ==> r.value.registrationNumber == registration
    {
      if registration in vehicleMap {
        var stored := vehicleMap[registration];
        var vehicle := new Vehicle(stored.registration);
        vehicle.SetOwner(stored.owner);
        vehicle.SetBrand(stored.brand);
        r := Some(vehicle);
      } else {
        r := None;
      }
      calls := calls + [VehicleLookup(registration)];
    }

    /** Absent unless a dealer was saved under `orgNumber`. */
    method GetDealerByOrgNumber(orgNumber: string) returns (r: Option<Dealer>)
      requires Valid()
      modifies this`calls
      ensures calls == old(calls) + [DealerLookup(orgNumber)]
      ensures r.None? <==> orgNumber !in dealerMap
      ensures r.Some? ==> fresh(r.value) && r.value.Record() == dealerMap[orgNumber]
      ensures r.Some? ==> r.value.organisationNumber == orgNumber
    {
      if orgNumber in dealerMap {
        var stored := dealerMap[orgNumber];
        var dealer := new Dealer(stored.organisationNumber);
        dealer.ChangeNumberOfVehiclesBy(stored.ownedNumberOfVehicles);
        dealer.SetPremiumCustomer(stored.premiumCustomer);
        r := Some(dealer);
      } else {
        r := None;
      }
      calls := calls + [DealerLookup(orgNumber)];
    }

    method GetApprovedBrands(ownerOrgNumber: string) returns (r: seq<Brand>)
      modifies this`calls
      ensures calls == old(calls) + [BrandsQuery(ownerOrgNumber)]
      ensures r == ApprovedBrandsOf(ownerOrgNumber)
    {
      r := ApprovedBrandsOf(ownerOrgNumber);
      calls := calls + [BrandsQuery(ownerOrgNumber)];
    }

    /** Overwrites the entry under the vehicle's registration; nothing else changes. */
    method SaveVehicle(vehicle: Vehicle)
      requires Valid()
      modifies this
      ensures Valid()
      ensures calls == old(calls) + [VehicleSaved(vehicle.Record())]
      ensures State() == Apply(old(State()), VehicleSaved(vehicle.Record()))
      ensures vehicleMap[vehicle.registrationNumber] == vehicle.Record()
      ensures forall reg | reg in old(vehicleMap) && reg != vehicle.registrationNumber :: reg in vehicleMap && vehicleMap[reg] == old(vehicleMap)[reg]
      ensures dealerMap == old(dealerMap)
    {
      vehicleMap := vehicleMap[vehicle.registrationNumber := vehicle.Record()];
      calls := calls + [VehicleSaved(vehicle.Record())];
    }

    /** Overwrites the entry under the dealer's organisation number; nothing else changes. */
    method SaveDealer(dealer: Dealer)
      requires Valid()
      modifies this
      ensures Valid()
      ensures calls == old(calls) + [DealerSaved(dealer.Record())]
      ensures State() == Apply(old(State()), DealerSaved(dealer.Record()))
      ensures dealerMap[dealer.organisationNumber] == dealer.Record()
      ensures forall org | org in old(dealerMap) && org != dealer.organisationNumber :: org in dealerMap && dealerMap[org] == old(dealerMap)[org]
      ensures vehicleMap == old(vehicleMap)
    {
      dealerMap := dealerMap[dealer.organisationNumber := dealer.Record()];
      calls := calls + [DealerSaved(dealer.Record())];
    }
  }
}
