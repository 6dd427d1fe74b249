/** The newer draft's `ApplicationState` (package ch.unil.furrybuddy.domain):
    six tables that every operation updates in place. Each method's new state is
    the matching function of module Registry applied to the old state. */
module RegistryState {
  import opened Entities
  import opened Table
  import opened Registry
  import opened RegistryTrace
  import opened RegistrySeed

  class ApplicationState {
    var adopters: map<Uuid, Adopter>
    var petOwners: map<Uuid, PetOwner>
    var pets: map<Uuid, Pet>
    var users: map<Uuid, User>
    var advertisements: map<Uuid, Advertisement>
    var adoptionRequests: map<Uuid, AdoptionRequest>

    /** The six tables as one value. */
    function State(): Tables
      reads this
    {
      Tables(adopters, petOwners, pets, users, advertisements, adoptionRequests)
    }

    ghost predicate Valid()
      reads this
    {
      Consistent(State())
    }

    /** The container creates the object and then runs `init`. */
    constructor ()
      ensures State() == Seed() && Valid()
    {
      adopters, petOwners, pets, users, advertisements, adoptionRequests :=
        map[], map[], map[], map[], map[], map[];
      new;
      Init();
      SeedIsConsistent();
    }

    /** `init`: six fresh tables, then the seed data. Whatever the tables held
        before, they hold the seed afterwards (which is `Valid`, by
        `SeedIsConsistent`). */
    method Init()
      modifies this
      ensures State() == Seed()
    {
      adopters, petOwners, pets, users, advertisements, adoptionRequests :=
        map[], map[], map[], map[], map[], map[];
      ghost var empty := State();
      assert empty == Empty;
      PopulateApplicationState();
      PopulateEmptyIsSeed();
    }

    /** `populateApplicationState`: adds the seed entities one by one, each
        advertisement built from the pet and the owner as `add` returned them. */
    method PopulateApplicationState()
      modifies this
      ensures State() == Populate(old(State()))
    {
      var pepper := AddPetWithId(PepperID, Pepper);
      var nala := AddPetWithId(NalaID, Nala);
      var simba := AddPetWithId(SimbaID, Simba);
      var alice := AddPetOwnerWithId(AliceID, Alice);
      var bernard := AddPetOwnerWithId(BernardID, Bernard);
      var bob := AddAdopterWithId(BobID, Bob);
      var jane := AddAdopterWithId(JaneID, Jane);
      var advertisementForPepper := AddAdvertisementWithId(AdvertisementForPepperID, AdvertisementFor(pepper, alice));
      var advertisementForSimba := AddAdvertisementWithId(AdvertisementForSimbaID, AdvertisementFor(simba, bernard));
    }

    // -------------------------------------------------------------- pets
    /** `addPet(pet)`: files the pet under its own identifier when it
        has one, otherwise under `randomID`; the pet is stamped with that key and returned. */
    method AddPet(pet: Pet, randomID: Uuid) returns (r: Pet)
      modifies this
      ensures r == pet.(petID := Some(KeyFor(pet.petID, randomID)))
      ensures State() == Registry.AddPetWithId(old(State()), KeyFor(pet.petID, randomID), pet)
      ensures old(Valid()) ==> Valid()
    {
      if pet.petID.Some? {
        r := AddPetWithId(pet.petID.value, pet);
      } else {
        r := AddPetWithId(randomID, pet);
      }
    }

    method AddPetWithId(petID: Uuid, pet: Pet) returns (r: Pet)
      modifies this
      ensures r == pet.(petID := Some(petID))
      ensures State() == Registry.AddPetWithId(old(State()), petID, pet)
      ensures old(Valid()) ==> Valid()
    {
      ghost var before := State();
      r := pet.(petID := Some(petID));
      pets := Put(pets, petID, r);
      if Consistent(before) {
        AddPetWithIdKeepsConsistent(before, petID, pet);
      }
    }

    /** `getPet`: the stored pet, or null when the key is absent. */
    method GetPet(petID: Uuid) returns (r: Option<Pet>)
      ensures r.Some? <==> petID in pets
      ensures r.Some? ==> r.value == pets[petID]
      ensures Valid() && r.Some? ==> r.value.petID == Some(petID)
    {
      r := Get(pets, petID);
    }

    /** `getAllPets`: the whole table. */
    method GetAllPets() returns (r: map<Uuid, Pet>)
      ensures r == pets
    {
      r := pets;
    }

    /** `setPet(petID, pet)`: false, with nothing changed, when `petID` is
        absent; otherwise the stored pet takes the attributes of `pet`
        and the result is true. */
    method SetPet(petID: Uuid, pet: Pet) returns (ok: bool)
      modifies this
      ensures ok <==> petID in old(pets)
      ensures !ok ==> State() == old(State())
      ensures State() == Registry.SetPet(old(State()), petID, pet)
      ensures old(Valid()) ==> Valid()
    {
      ghost var before := State();
      var stored := Get(pets, petID);
      if stored.None? {
        return false;
      }
      pets := Put(pets, petID, stored.value.ReplaceWith(pet));
      if Consistent(before) {
        SetPetKeepsConsistent(before, petID, pet);
      }
      return true;
    }

    /** `removePet(petID)`: false, with nothing changed, when `petID` is
        absent; otherwise the key leaves this one table and the result is true. */
    method RemovePet(petID: Uuid) returns (ok: bool)
      modifies this
      ensures ok <==> petID in old(pets)
      ensures !ok ==> State() == old(State())
      ensures State() == Registry.RemovePet(old(State()), petID)
      ensures old(Valid()) ==> Valid()
    {
      ghost var before := State();
      var stored := Get(pets, petID);
      if stored.None? {
        return false;
      }
      pets := Delete(pets, petID);
      if Consistent(before) {
        ApplyKeepsConsistent(before, RemovePetCall(petID));
      }
      return true;
    }

    // -------------------------------------------------------- pet owners
    /** `addPetOwner(petOwner)`: files the pet owner under its own identifier when it
        has one, otherwise under `randomID`; the pet owner is stamped with that key and returned. */
    method AddPetOwner(petOwner: PetOwner, randomID: Uuid) returns (r: PetOwner)
      modifies this
      ensures r == petOwner.(userID := Some(KeyFor(petOwner.userID, randomID)))
      ensures State() == Registry.AddPetOwnerWithId(old(State()), KeyFor(petOwner.userID, randomID), petOwner)
      ensures old(Valid()) ==> Valid()
    {
      if petOwner.userID.Some? {
        r := AddPetOwnerWithId(petOwner.userID.value, petOwner);
      } else {
        r := AddPetOwnerWithId(randomID, petOwner);
      }
    }

    method AddPetOwnerWithId(userID: Uuid, petOwner: PetOwner) returns (r: PetOwner)
      modifies this
      ensures r == petOwner.(userID := Some(userID))
      ensures State() == Registry.AddPetOwnerWithId(old(State()), userID, petOwner)
      ensures old(Valid()) ==> Valid()
    {
      ghost var before := State();
      r := petOwner.(userID := Some(userID));
      petOwners := Put(petOwners, userID, r);
      users := Put(users, userID, OwnerUser(r));
      if Consistent(before) {
        AddPetOwnerWithIdKeepsConsistent(before, userID, petOwner);
      }
    }

    /** `getPetOwner`: the stored pet owner, or null when the key is absent. */
    method GetPetOwner(userID: Uuid) returns (r: Option<PetOwner>)
      ensures r.Some? <==> userID in petOwners
      ensures r.Some? ==> r.value == petOwners[userID]
      ensures Valid() && r.Some? ==> r.value.userID == Some(userID)
    {
      r := Get(petOwners, userID);
    }

    /** `getAllPetOwners`: the whole table. */
    method GetAllPetOwners() returns (r: map<Uuid, PetOwner>)
      ensures r == petOwners
    {
      r := petOwners;
    }

    /** `setPetOwner(userID, petOwner)`: false, with nothing changed, when `userID` is
        absent; otherwise the stored pet owner takes the attributes of `petOwner`
        and the result is true. */
    method SetPetOwner(userID: Uuid, petOwner: PetOwner) returns (ok: bool)
      modifies this
      ensures ok <==> userID in old(petOwners)
      ensures !ok ==> State() == old(State())
      ensures State() == Registry.SetPetOwner(old(State()), userID, petOwner)
      ensures old(Valid()) ==> Valid()
    {
      ghost var before := State();
      var stored := Get(petOwners, userID);
      if stored.None? {
        return false;
      }
      petOwners := Put(petOwners, userID, stored.value.ReplaceWith(petOwner));
      if Consistent(before) {
        SetPetOwnerKeepsConsistent(before, userID, petOwner);
      }
      return true;
    }

    /** `removePetOwner(petOwnerID)`: false, with nothing changed, when `petOwnerID` is
        absent; otherwise the key leaves this one table and the result is true. */
    method RemovePetOwner(petOwnerID: Uuid) returns (ok: bool)
      modifies this
      ensures ok <==> petOwnerID in old(petOwners)
      ensures !ok ==> State() == old(State())
      ensures State() == Registry.RemovePetOwner(old(State()), petOwnerID)
      ensures old(Valid()) ==> Valid()
    {
      ghost var before := State();
      var stored := Get(petOwners, petOwnerID);
      if stored.None? {
        return false;
      }
      petOwners := Delete(petOwners, petOwnerID);
      if Consistent(before) {
        ApplyKeepsConsistent(before, RemovePetOwnerCall(petOwnerID));
      }
      return true;
    }

    // ---------------------------------------------------------- adopters
    /** `addAdopter(adopter)`: files the adopter under its own identifier when it
        has one, otherwise under `randomID`; the adopter is stamped with that key and returned. */
    method AddAdopter(adopter: Adopter, randomID: Uuid) returns (r: Adopter)
      modifies this
      ensures r == adopter.(userID := Some(KeyFor(adopter.userID, randomID)))
      ensures State() == Registry.AddAdopterWithId(old(State()), KeyFor(adopter.userID, randomID), adopter)
      ensures old(Valid()) ==> Valid()
    {
      if adopter.userID.Some? {
        r := AddAdopterWithId(adopter.userID.value, adopter);
      } else {
        r := AddAdopterWithId(randomID, adopter);
      }
    }

    method AddAdopterWithId(userID: Uuid, adopter: Adopter) returns (r: Adopter)
      modifies this
      ensures r == adopter.(userID := Some(userID))
      ensures State() == Registry.AddAdopterWithId(old(State()), userID, adopter)
      ensures old(Valid()) ==> Valid()
    {
      ghost var before := State();
      r := adopter.(userID := Some(userID));
      adopters := Put(adopters, userID, r);
      users := Put(users, userID, AdopterUser(r));
      if Consistent(before) {
        AddAdopterWithIdKeepsConsistent(before, userID, adopter);
      }
    }

    /** `getAdopter`: the stored adopter, or null when the key is absent. */
    method GetAdopter(userID: Uuid) returns (r: Option<Adopter>)
      ensures r.Some? <==> userID in adopters
      ensures r.Some? ==> r.value == adopters[userID]
      ensures Valid() && r.Some? ==> r.value.userID == Some(userID)
    {
      r := Get(adopters, userID);
    }

    /** `getAllAdopters`: the whole table. */
    method GetAllAdopters() returns (r: map<Uuid, Adopter>)
      ensures r == adopters
    {
      r := adopters;
    }

    /** `setAdopter(userID, adopter)`: false, with nothing changed, when `userID` is
        absent; otherwise the stored adopter takes the attributes of `adopter`
        and the result is true. */
    method SetAdopter(userID: Uuid, adopter: Adopter) returns (ok: bool)
      modifies this
      ensures ok <==> userID in old(adopters)
      ensures !ok ==> State() == old(State())
      ensures State() == Registry.SetAdopter(old(State()), userID, adopter)
      ensures old(Valid()) ==> Valid()
    {
      ghost var before := State();
      var stored := Get(adopters, userID);
      if stored.None? {
        return false;
      }
      adopters := Put(adopters, userID, stored.value.ReplaceWith(adopter));
      if Consistent(before) {
        SetAdopterKeepsConsistent(before, userID, adopter);
      }
      return true;
    }

    /** `removeAdopter(adopterID)`: false, with nothing changed, when `adopterID` is
        absent; otherwise the key leaves this one table and the result is true. */
    method RemoveAdopter(adopterID: Uuid) returns (ok: bool)
      modifies this
      ensures ok <==> adopterID in old(adopters)
      ensures !ok ==> State() == old(State())
      ensures State() == Registry.RemoveAdopter(old(State()), adopterID)
      ensures old(Valid()) ==> Valid()
    {
      ghost var before := State();
      var stored := Get(adopters, adopterID);
      if stored.None? {
        return false;
      }
      adopters := Delete(adopters, adopterID);
      if Consistent(before) {
        ApplyKeepsConsistent(before, RemoveAdopterCall(adopterID));
      }
      return true;
    }

    // ---------------------------------------------------- advertisements
    /** `addAdvertisement(advertisement)`: files the advertisement under its own identifier when it
        has one, otherwise under `randomID`; it is filed and returned as it is, so when it had no identifier it keeps none. */
    method AddAdvertisement(advertisement: Advertisement, randomID: Uuid) returns (r: Advertisement)
      modifies this
      ensures r == advertisement
      ensures State() == Registry.AddAdvertisementWithId(old(State()), KeyFor(advertisement.advertisementID, randomID), advertisement)
      ensures old(Valid()) ==> Valid()
    {
      if advertisement.advertisementID.Some? {
        r := AddAdvertisementWithId(advertisement.advertisementID.value, advertisement);
      } else {
        r := AddAdvertisementWithId(randomID, advertisement);
      }
    }

    method AddAdvertisementWithId(advertisementID: Uuid, advertisement: Advertisement) returns (r: Advertisement)
      modifies this
      ensures r == advertisement
      ensures State() == Registry.AddAdvertisementWithId(old(State()), advertisementID, advertisement)
      ensures old(Valid()) ==> Valid()
    {
      ghost var before := State();
      advertisements := Put(advertisements, advertisementID, advertisement);
      r := advertisement;
      if Consistent(before) {
        ApplyKeepsConsistent(before, AddAdvertisementCall(advertisementID, advertisement));
      }
    }

    /** `getAdvertisement`: the stored advertisement, or null when the key is absent. */
    method GetAdvertisement(advertisementID: Uuid) returns (r: Option<Advertisement>)
      ensures r.Some? <==> advertisementID in advertisements
      ensures r.Some? ==> r.value == advertisements[advertisementID]
    {
      r := Get(advertisements, advertisementID);
    }

    /** `getAllAds`: the whole table. */
    method GetAllAds() returns (r: map<Uuid, Advertisement>)
      ensures r == advertisements
    {
      r := advertisements;
    }

    /** `setAdvertisement(advertisementID, advertisement)`: false, with nothing changed, when `advertisementID` is
        absent; otherwise the stored advertisement takes the attributes of `advertisement`
        and the result is true. */
    method SetAdvertisement(advertisementID: Uuid, advertisement: Advertisement) returns (ok: bool)
      modifies this
      ensures ok <==> advertisementID in old(advertisements)
      ensures !ok ==> State() == old(State())
      ensures State() == Registry.SetAdvertisement(old(State()), advertisementID, advertisement)
      ensures old(Valid()) ==> Valid()
    {
      ghost var before := State();
      var stored := Get(advertisements, advertisementID);
      if stored.None? {
        return false;
      }
      advertisements := Put(advertisements, advertisementID, stored.value.ReplaceWith(advertisement));
      if Consistent(before) {
        ApplyKeepsConsistent(before, SetAdvertisementCall(advertisementID, advertisement));
      }
      return true;
    }

    /** `removeAdvertisement(advertisementID)`: false, with nothing changed, when `advertisementID` is
        absent; otherwise the key leaves this one table and the result is true. */
    method RemoveAdvertisement(advertisementID: Uuid) returns (ok: bool)
      modifies this
      ensures ok <==> advertisementID in old(advertisements)
      ensures !ok ==> State() == old(State())
      ensures State() == Registry.RemoveAdvertisement(old(State()), advertisementID)
      ensures old(Valid()) ==> Valid()
    {
      ghost var before := State();
      var stored := Get(advertisements, advertisementID);
      if stored.None? {
        return false;
      }
      advertisements := Delete(advertisements, advertisementID);
      if Consistent(before) {
        ApplyKeepsConsistent(before, RemoveAdvertisementCall(advertisementID));
      }
      return true;
    }

    // ------------------------------------------------- adoption requests
    /** `addAdoptionRequest(adoptionRequest)`: files the adoption request under its own identifier when it
        has one, otherwise under `randomID`; it is filed and returned as it is, so when it had no identifier it keeps none. */
    method AddAdoptionRequest(adoptionRequest: AdoptionRequest, randomID: Uuid) returns (r: AdoptionRequest)
      modifies this
      ensures r == adoptionRequest
      ensures State() == Registry.AddAdoptionRequestWithId(old(State()), KeyFor(adoptionRequest.requestID, randomID), adoptionRequest)
      ensures old(Valid()) ==> Valid()
    {
      if adoptionRequest.requestID.Some? {
        r := AddAdoptionRequestWithId(adoptionRequest.requestID.value, adoptionRequest);
      } else {
        r := AddAdoptionRequestWithId(randomID, adoptionRequest);
      }
    }

    method AddAdoptionRequestWithId(adoptionRequestID: Uuid, adoptionRequest: AdoptionRequest) returns (r: AdoptionRequest)
      modifies this
      ensures r == adoptionRequest
      ensures State() == Registry.AddAdoptionRequestWithId(old(State()), adoptionRequestID, adoptionRequest)
      ensures old(Valid()) ==> Valid()
    {
      ghost var before := State();
      adoptionRequests := Put(adoptionRequests, adoptionRequestID, adoptionRequest);
      r := adoptionRequest;
      if Consistent(before) {
        ApplyKeepsConsistent(before, AddAdoptionRequestCall(adoptionRequestID, adoptionRequest));
      }
    }

    /** `getAdoptionRequest`: the stored adoption request, or null when the key is absent. */
    method GetAdoptionRequest(adoptionRequestID: Uuid) returns (r: Option<AdoptionRequest>)
      ensures r.Some? <==> adoptionRequestID in adoptionRequests
      ensures r.Some? ==> r.value == adoptionRequests[adoptionRequestID]
    {
      r := Get(adoptionRequests, adoptionRequestID);
    }

    /** `getAllAdoptionRequests`: the whole table. */
    method GetAllAdoptionRequests() returns (r: map<Uuid, AdoptionRequest>)
      ensures r == adoptionRequests
    {
      r := adoptionRequests;
    }

    /** `setAdoptionRequest(adoptionRequestID, adoptionRequest)`: false, with nothing changed, when `adoptionRequestID` is
        absent; otherwise the stored adoption request takes the attributes of `adoptionRequest`
        and the result is true. */
    method SetAdoptionRequest(adoptionRequestID: Uuid, adoptionRequest: AdoptionRequest) returns (ok: bool)
      modifies this
      ensures ok <==> adoptionRequestID in old(adoptionRequests)
      ensures !ok ==> State() == old(State())
      ensures State() == Registry.SetAdoptionRequest(old(State()), adoptionRequestID, adoptionRequest)
      ensures old(Valid()) ==> Valid()
    {
      ghost var before := State();
      var stored := Get(adoptionRequests, adoptionRequestID);
      if stored.None? {
        return false;
      }
      adoptionRequests := Put(adoptionRequests, adoptionRequestID, stored.value.ReplaceWith(adoptionRequest));
      if Consistent(before) {
        ApplyKeepsConsistent(before, SetAdoptionRequestCall(adoptionRequestID, adoptionRequest));
      }
      return true;
    }

    /** `removeAdoptionRequest(adoptionRequestID)`: false, with nothing changed, when `adoptionRequestID` is
        absent; otherwise the key leaves this one table and the result is true. */
    method RemoveAdoptionRequest(adoptionRequestID: Uuid) returns (ok: bool)
      modifies this
      ensures ok <==> adoptionRequestID in old(adoptionRequests)
      ensures !ok ==> State() == old(State())
      ensures State() == Registry.RemoveAdoptionRequest(old(State()), adoptionRequestID)
      ensures old(Valid()) ==> Valid()
    {
      ghost var before := State();
      var stored := Get(adoptionRequests, adoptionRequestID);
      if stored.None? {
        return false;
      }
      adoptionRequests := Delete(adoptionRequests, adoptionRequestID);
      if Consistent(before) {
        ApplyKeepsConsistent(before, RemoveAdoptionRequestCall(adoptionRequestID));
      }
      return true;
    }
  }
}
