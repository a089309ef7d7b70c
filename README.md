# Vehicle-to-dealer ownership assignment, modelled in Dafny

This project models the part of the talang-quality system that assigns a vehicle to a dealer. It covers:

- **The ownership rule** on the vehicle entity (`Vehicle.assignOwner`):
  - a vehicle the dealer already owns is left alone;
  - a vehicle owned by someone else is refused (NotAllowed);
  - an unowned vehicle whose brand is not on the dealer's approved list is refused (NotAllowed);
  - otherwise the dealer becomes the owner, and a LAMBORGHINI makes the dealer a premium customer.
- **The dealer entity**: a fixed organisation number, a 32-bit vehicle count and the premium flag.
- **The assignment service** (`VehicleService.assignOwner`). It writes the same rule out again. It looks the vehicle up, checks ownership, queries the approved brands, checks the brand, and only then looks the dealer up. It saves the dealer (for a LAMBORGHINI) before it saves the vehicle.
- **The repository contract**: two lookups, the approved-brand query and two saves. It is implemented by the map-backed test repository `RepositoryFake`: vehicles are keyed by registration, dealers by organisation number, and every dealer gets the approved list [VOLVO, LAMBORGHINI].
- **The service scenarios** that run through that repository.

Modules, one per source component:

- `Wrappers`: `Option`, `Result` and `Outcome`. `Outcome` stands for a `void` method that returns or throws.
- `Exceptions`: the error kinds.
- `Brands`: the brand enumeration and `List.of(...).contains`.
- `Dealers`: `Dealer.java`, with a 32-bit `Int32` for the Java `int`.
- `Vehicles`: `Vehicle.java`, plus the rule as a pure function `Assign` on records.
- `Repositories`: `Repository.java` and `RepositoryFake`.
- `Services`: `VehicleService.java`, plus its specification `AssignOwnerEffect`.
- `ServiceScenarios`: the scenarios of `VehicleServiceTestWithFake.java`.

How the model is built:

- Entities are classes, updated in place by their setters.
- `Record()` gives an entity's field values as a datatype.
- The repository stores records, not objects. A lookup hands out a fresh entity rebuilt from the stored record, using the entity's own constructor and setters. Only a save changes the stored maps.
- The repository keeps a ghost log `calls` of every call made on it. This lets the contracts state the order of lookups and saves.
- `Repositories.Replay` gives the meaning of such a log: a save puts the record under its identifier, and a lookup changes nothing.

Modelling choices worth knowing:

- **Vehicle brand.** It is `Option<Brand>`, because the `Vehicle` constructor sets only the registration. An unset brand that reaches the approved-list check is the error `NullPointer`. The only lists the core builds are `List.of` lists, and `List.of(...).contains(null)` throws NullPointerException.
- **Owner.** It is `Option<string>`: `None` means unassigned.
- **The two versions of the rule.** The service compares the owner with its argument `ownerOrgNumber`. The entity compares it with the dealer's own organisation number. `Services.AgreesWithVehicleRule` shows the two agree whenever every stored vehicle is filed under its own registration and every stored dealer under its own organisation number. `RepositoryFake` always files both that way.
- **Package imports.** `VehicleService.java` imports its `Vehicle`, `Dealer` and `Brand` from a `model` package. `Repository.java` uses the `domain` classes. The service is modelled on the `domain` entities, which are the ones the repository hands out.

Behaviour of the code worth knowing:

- The dealer is looked up after the ownership and brand checks, not before them.
- The dealer is saved whenever the brand is LAMBORGHINI, even if the dealer was already premium.
- The dealer is saved before the vehicle.
- The approved brands form an ordered list queried with `contains`.

## Model

| member | source | states |
|---|---|---|
| `Brands.Contains` | src/main/java/se/cygni/talang/quality/domain/Vehicle.java:46 | membership in an approved list: fails with NullPointer exactly when the brand is unset, otherwise true exactly when the brand is in the list |
| `Dealers.WrapAdd` | src/main/java/se/cygni/talang/quality/domain/Dealer.java:31-33 | Java `int` addition: congruent to the exact sum modulo 2^32, and equal to it when the sum fits in 32 bits |
| `Dealers.Dealer.constructor` | src/main/java/se/cygni/talang/quality/domain/Dealer.java:7-13 | a new dealer has the given organisation number, count 0 and premium false; the number is a `const` and never changes |
| `Dealers.Dealer.SetPremiumCustomer` | src/main/java/se/cygni/talang/quality/domain/Dealer.java:27-29 | the premium flag becomes exactly the argument; number and count are unchanged |
| `Dealers.Dealer.ChangeNumberOfVehiclesBy` | src/main/java/se/cygni/talang/quality/domain/Dealer.java:31-33 | the count grows by exactly `delta` (wrapped to 32 bits, no lower bound); number and flag are unchanged |
| `Dealers.Dealer.Equals` | src/main/java/se/cygni/talang/quality/domain/Dealer.java:35-43 | two dealers are equal exactly when count, premium flag and organisation number all agree |
| `Vehicles.Assign` | src/main/java/se/cygni/talang/quality/domain/Vehicle.java:38-54 | no-op when the dealer already owns the vehicle, whatever the list; fails exactly when the owner is another dealer or the brand is unset or unapproved (NullPointer for an unset brand of an unowned vehicle, otherwise NotAllowed); on success the owner is the dealer's number with registration and brand unchanged, and the dealer changes only in its premium flag, which becomes old flag OR (newly assigned AND LAMBORGHINI), so it never goes from true to false |
| `Vehicles.OwnershipDecidedBeforeBrand` | src/main/java/se/cygni/talang/quality/domain/Vehicle.java:39-48 | for an owned vehicle the approved list makes no difference, and a different owner is always NotAllowed |
| `Vehicles.AssignIdempotent` | src/main/java/se/cygni/talang/quality/domain/Vehicle.java:39-50 | applying the rule again to its own successful result returns that result unchanged |
| `Vehicles.Vehicle.constructor` | src/main/java/se/cygni/talang/quality/domain/Vehicle.java:14-16 | a new vehicle has the given registration and neither owner nor brand |
| `Vehicles.Vehicle.SetOwner` | src/main/java/se/cygni/talang/quality/domain/Vehicle.java:22-24 | only the owner changes, to the argument |
| `Vehicles.Vehicle.SetBrand` | src/main/java/se/cygni/talang/quality/domain/Vehicle.java:34-36 | only the brand changes, to the argument |
| `Vehicles.Vehicle.AssignOwner` | src/main/java/se/cygni/talang/quality/domain/Vehicle.java:38-54 | the vehicle and the passed-in dealer end as `Assign` of their old records says; on a refusal it returns the error with both objects unchanged |
| `Vehicles.Vehicle.Equals` | src/main/java/se/cygni/talang/quality/domain/Vehicle.java:56-64 | two vehicles are equal exactly when registration, owner and brand all agree |
| `Repositories.Apply` | src/test/java/se/cygni/talang/quality/application/VehicleServiceTestWithFake.java:172-180 | a save adds its record's identifier to the keys, and no call files an entry under another key |
| `Repositories.ReplayWithoutSaves` | src/test/java/se/cygni/talang/quality/application/VehicleServiceTestWithFake.java:157-170 | any sequence of lookups and brand queries leaves the store unchanged |
| `Repositories.ReplayKeepsKeyed` | src/test/java/se/cygni/talang/quality/application/VehicleServiceTestWithFake.java:173-179 | no sequence of calls files a vehicle under another registration or a dealer under another number |
| `Repositories.ApprovedBrandsOf` | src/test/java/se/cygni/talang/quality/application/VehicleServiceTestWithFake.java:167-170 | every dealer is approved for VOLVO and LAMBORGHINI, not for TOYOTA, with no repeats |
| `Repositories.RepositoryFake.constructor` | src/test/java/se/cygni/talang/quality/application/VehicleServiceTestWithFake.java:153-155 | a new store holds no vehicle and no dealer, so every lookup is absent until a save |
| `Repositories.RepositoryFake.GetVehicleByRegistration` | src/test/java/se/cygni/talang/quality/application/VehicleServiceTestWithFake.java:157-160 | absent exactly when nothing is stored under the registration, else an entity equal to the stored vehicle with that registration; the store is unchanged |
| `Repositories.RepositoryFake.GetDealerByOrgNumber` | src/test/java/se/cygni/talang/quality/application/VehicleServiceTestWithFake.java:162-165 | absent exactly when nothing is stored under the number, else an entity equal to the stored dealer with that number; the store is unchanged |
| `Repositories.RepositoryFake.GetApprovedBrands` | src/test/java/se/cygni/talang/quality/application/VehicleServiceTestWithFake.java:167-170 | the fixed list for any organisation number; the store is unchanged |
| `Repositories.RepositoryFake.SaveVehicle` | src/test/java/se/cygni/talang/quality/application/VehicleServiceTestWithFake.java:172-175 | overwrites the entry under the vehicle's registration, so a lookup then returns it; other vehicles and all dealers are unchanged |
| `Repositories.RepositoryFake.SaveDealer` | src/test/java/se/cygni/talang/quality/application/VehicleServiceTestWithFake.java:177-180 | overwrites the entry under the dealer's number, so a lookup then returns it; other dealers and all vehicles are unchanged |
| `Services.AssignOwnerEffect` | src/main/java/se/cygni/talang/quality/application/VehicleService.java:23-46 | the first repository call is always the vehicle lookup, and a failing call makes no save |
| `Services.MissingVehicleIsNotFound` | src/main/java/se/cygni/talang/quality/application/VehicleService.java:56-62 | a missing vehicle gives NotFound after the vehicle lookup alone |
| `Services.AlreadyOwnedIsNoOp` | src/main/java/se/cygni/talang/quality/application/VehicleService.java:25-27 | a vehicle the dealer already owns: returns normally after the vehicle lookup alone, so no brand query, dealer lookup or save |
| `Services.OwnedByOtherIsNotAllowed` | src/main/java/se/cygni/talang/quality/application/VehicleService.java:28-30 | a vehicle owned by another dealer: NotAllowed after the vehicle lookup alone |
| `Services.UnapprovedBrandIsNotAllowed` | src/main/java/se/cygni/talang/quality/application/VehicleService.java:32-35 | an unapproved brand: NotAllowed after the vehicle lookup and the brand query, before any dealer lookup |
| `Services.MissingDealerIsReportedLast` | src/main/java/se/cygni/talang/quality/application/VehicleService.java:37 | NotFound for an existing vehicle exactly when it is unowned, its brand is approved and the dealer is missing |
| `Services.AssignmentWrites` | src/main/java/se/cygni/talang/quality/application/VehicleService.java:38-44 | a successful assignment: three lookups and then the saves. A LAMBORGHINI saves the dealer with premium true, whatever the old flag, before the vehicle. Any other brand saves only the vehicle. The last call saves the vehicle with owner = `ownerOrgNumber` |
| `Services.FailureLeavesStoreUnchanged` | src/main/java/se/cygni/talang/quality/application/VehicleService.java:24-37 | every failing call leaves the store as it was |
| `Services.AgreesWithVehicleRule` | src/main/java/se/cygni/talang/quality/application/VehicleService.java:25-44 | when both entities exist in a consistently keyed store, the service fails exactly as `Vehicles.Assign` fails and otherwise stores exactly the vehicle and dealer the rule produces |
| `Services.StoredAfterSuccess` | src/main/java/se/cygni/talang/quality/application/VehicleService.java:38-44 | after a normal return the stored vehicle is owned by `ownerOrgNumber`, and a premium dealer is still premium |
| `Services.VehicleService.constructor` | src/main/java/se/cygni/talang/quality/application/VehicleService.java:19-21 | the service works on exactly the repository it is given |
| `Services.VehicleService.AssignOwner` | src/main/java/se/cygni/talang/quality/application/VehicleService.java:23-46 | answers as `AssignOwnerEffect` says, makes exactly its calls in its order, changes the store as those calls replay, and keeps the store keyed |
| `Services.ReplayAssignmentSaves` | src/main/java/se/cygni/talang/quality/application/VehicleService.java:38-44 | the saves of an assignment file the vehicle, now owned by `ownerOrgNumber`, under its registration; for a LAMBORGHINI they also file the dealer with premium true under its number; nothing else in the store changes |
| `Services.VehicleService.SaveAssignment` | src/main/java/se/cygni/talang/quality/application/VehicleService.java:38-44 | the write phase: the vehicle object ends owned by `ownerOrgNumber` with nothing else changed; the dealer object ends premium for a LAMBORGHINI and is otherwise unchanged; the log grows by exactly the dealer save (LAMBORGHINI only) followed by the vehicle save, the store changes as those saves replay, and it stays keyed |
| `Services.VehicleService.GetVehicleIfExists` | src/main/java/se/cygni/talang/quality/application/VehicleService.java:56-62 | NotFound exactly when no vehicle is stored under the registration, else that vehicle |
| `Services.VehicleService.GetDealerIfExists` | src/main/java/se/cygni/talang/quality/application/VehicleService.java:48-54 | NotFound exactly when no dealer is stored under the number, else that dealer |
| `ServiceScenarios.Run` | src/test/java/se/cygni/talang/quality/application/VehicleServiceTestWithFake.java:27-31 | storing a vehicle and a new dealer and running the service leaves exactly what `Vehicles.Assign` makes of them |
| `ServiceScenarios.AlreadyAssignedToNewOwner` | src/test/java/se/cygni/talang/quality/application/VehicleServiceTestWithFake.java:33-45 | returns normally and the stored vehicle is unchanged |
| `ServiceScenarios.AlreadyAssignedToDifferentOwner` | src/test/java/se/cygni/talang/quality/application/VehicleServiceTestWithFake.java:47-58 | NotAllowed, even with the brand unset; vehicle and dealer are unchanged |
| `ServiceScenarios.BrandNotApproved` | src/test/java/se/cygni/talang/quality/application/VehicleServiceTestWithFake.java:60-71 | a TOYOTA is refused with NotAllowed and stays unowned |
| `ServiceScenarios.NormalVehicleToNonPremiumDealer` | src/test/java/se/cygni/talang/quality/application/VehicleServiceTestWithFake.java:73-90 | the VOLVO is owned by "123-456789" and the dealer is unchanged |
| `ServiceScenarios.PremiumVehicleToNonPremiumDealer` | src/test/java/se/cygni/talang/quality/application/VehicleServiceTestWithFake.java:92-111 | the LAMBORGHINI is owned by "123-456789" and the stored dealer is premium |
| `ServiceScenarios.NormalVehicleToPremiumDealer` | src/test/java/se/cygni/talang/quality/application/VehicleServiceTestWithFake.java:113-131 | the VOLVO is owned by the dealer and the stored dealer is still premium |
| `ServiceScenarios.PremiumVehicleToPremiumDealer` | src/test/java/se/cygni/talang/quality/application/VehicleServiceTestWithFake.java:133-151 | the LAMBORGHINI is owned by the dealer and the stored dealer is still premium |

## Left out

- `DatabaseRepository.java`: SQL through Spring's JDBC template and row mappers is storage plumbing. It also implements `getPremiumBrands` rather than `getApprovedBrands`. Its rule that a lookup is absent unless exactly one row matches is not modelled. The map store has at most one entry per key.
- `Endpoints.java`: a fixed-argument HTTP trigger that maps the two exception kinds to status 400.
- Message text of the exceptions: the model keeps only the kinds NotFound, NotAllowed and NullPointer.
- `hashCode` and the `this == o` / `getClass` / null checks of `equals(Object)`. `Equals` compares two non-null entities of the same class.
- Object aliasing in `RepositoryFake`. It stores object references, whereas the model stores values. So an in-place change to a loaded entity reaches the store only through a save.
- Null identifiers. Registration numbers, organisation numbers, the dealer argument and the approved list are never null in the model.
- Other list implementations. The null-brand case follows `List.of`, the only kind of list the core builds. An `ArrayList` would answer `contains(null)` with false instead of throwing.
- `Brand.java` itself: only the three values the code uses are modelled.
- Repository faults. Saves and lookups cannot fail in the model, so the window between the dealer save and the vehicle save, in which a storage fault would leave a partial write, is not modelled.
- The getters (`getRegistration`, `getOwner`, `getBrand`, `getOrganisationNumber`, `getOwnedNumberOfVehicles`, `isPremiumCustomer`) are plain field reads in Dafny.
- `VehicleServiceTest.java` (Mockito-based) and `VehicleTest.java` (a plain parameterised JUnit test): they are not modelled as scenarios. The first uses classes that no longer exist; the second covers what `Vehicles.Assign` states.
