/** The newer draft of the FurryBuddy registry (package ch.unil.furrybuddy.domain)
    as values: its six tables, one function per state-changing operation,
    round trips between them, and the invariant every operation keeps. The seed
    data `init` loads is in module RegistrySeed, sequences of operations in
    module RegistryTrace. */
module Registry {
  import opened Entities
  import opened Table

  /** The six `TreeMap<UUID, _>` fields of `ApplicationState`. */
  datatype Tables = Tables(
    adopters: map<Uuid, Adopter>,
    petOwners: map<Uuid, PetOwner>,
    pets: map<Uuid, Pet>,
    users: map<Uuid, User>,
    advertisements: map<Uuid, Advertisement>,
    adoptionRequests: map<Uuid, AdoptionRequest>)

  /** The six fresh maps `init` starts from. */
  const Empty := Tables(map[], map[], map[], map[], map[], map[])

  // ---------------------------------------------------------------- pets

  /** `addPet(petID, pet)`: the pet is stamped with `petID` and filed under it,
      overwriting any earlier entry; no other table changes. */
  function AddPetWithId(t: Tables, petID: Uuid, pet: Pet): (r: Tables)
    ensures Get(r.pets, petID) == Some(pet.(petID := Some(petID)))
    ensures SameElsewhere(t.pets, r.pets, petID)
    ensures r == t.(pets := r.pets)
  {
    t.(pets := Put(t.pets, petID, pet.(petID := Some(petID))))
  }

  /** `setPet(petID, pet)`: with `petID` absent nothing changes; otherwise the
      stored pet keeps its identifier and takes every attribute of `pet`, the
      keys stay as they were and no other table changes. */
  function SetPet(t: Tables, petID: Uuid, pet: Pet): (r: Tables)
    ensures petID !in t.pets ==> r == t
    ensures petID in t.pets ==>
      && Get(r.pets, petID) == Some(t.pets[petID].ReplaceWith(pet))
      && r.pets.Keys == t.pets.Keys
    ensures SameElsewhere(t.pets, r.pets, petID)
    ensures r == t.(pets := r.pets)
  {
    if petID in t.pets then t.(pets := Put(t.pets, petID, t.pets[petID].ReplaceWith(pet))) else t
  }

  /** `removePet(petID)`: afterwards `petID` finds no pet, every other key finds
      what it found before, and no other table changes. */
  function RemovePet(t: Tables, petID: Uuid): (r: Tables)
    ensures petID !in t.pets ==> r == t
    ensures Get(r.pets, petID) == None
    ensures SameElsewhere(t.pets, r.pets, petID)
    ensures r == t.(pets := r.pets)
  {
    if petID in t.pets then t.(pets := Delete(t.pets, petID)) else t
  }

  // ---------------------------------------------------------- pet owners

  /** `addPetOwner(userID, petOwner)`: the owner is stamped with `userID` and
      filed under it both among the pet owners and among the users; there is no
      validation at all; no other table changes. */
  function AddPetOwnerWithId(t: Tables, userID: Uuid, petOwner: PetOwner): (r: Tables)
    ensures Get(r.petOwners, userID) == Some(petOwner.(userID := Some(userID)))
    ensures Get(r.users, userID) == Some(OwnerUser(petOwner.(userID := Some(userID))))
    ensures SameElsewhere(t.petOwners, r.petOwners, userID)
    ensures SameElsewhere(t.users, r.users, userID)
    ensures r == t.(petOwners := r.petOwners, users := r.users)
  {
    var stamped := petOwner.(userID := Some(userID));
    t.(petOwners := Put(t.petOwners, userID, stamped), users := Put(t.users, userID, OwnerUser(stamped)))
  }

  /** `setPetOwner(userID, petOwner)`: as `SetPet`, on the pet owners only;
      the `users` entry is left as it was. */
  function SetPetOwner(t: Tables, userID: Uuid, petOwner: PetOwner): (r: Tables)
    ensures userID !in t.petOwners ==> r == t
    ensures userID in t.petOwners ==>
      && Get(r.petOwners, userID) == Some(t.petOwners[userID].ReplaceWith(petOwner))
      && r.petOwners.Keys == t.petOwners.Keys
    ensures SameElsewhere(t.petOwners, r.petOwners, userID)
    ensures r == t.(petOwners := r.petOwners)
  {
    if userID in t.petOwners then
      t.(petOwners := Put(t.petOwners, userID, t.petOwners[userID].ReplaceWith(petOwner)))
    else t
  }

  /** `removePetOwner(petOwnerID)`: removes the key from the pet owners only;
      the owner stays among the users and its advertisements stay listed. */
  function RemovePetOwner(t: Tables, petOwnerID: Uuid): (r: Tables)
    ensures petOwnerID !in t.petOwners ==> r == t
    ensures Get(r.petOwners, petOwnerID) == None
    ensures SameElsewhere(t.petOwners, r.petOwners, petOwnerID)
    ensures r.users == t.users && r.advertisements == t.advertisements
    ensures r == t.(petOwners := r.petOwners)
  {
    if petOwnerID in t.petOwners then t.(petOwners := Delete(t.petOwners, petOwnerID)) else t
  }

  // ------------------------------------------------------------ adopters

  /** `addAdopter(userID, adopter)`: stamped and filed under `userID` among the
      adopters and among the users, without validation; no other table changes. */
  function AddAdopterWithId(t: Tables, userID: Uuid, adopter: Adopter): (r: Tables)
    ensures Get(r.adopters, userID) == Some(adopter.(userID := Some(userID)))
    ensures Get(r.users, userID) == Some(AdopterUser(adopter.(userID := Some(userID))))
    ensures SameElsewhere(t.adopters, r.adopters, userID)
    ensures SameElsewhere(t.users, r.users, userID)
    ensures r == t.(adopters := r.adopters, users := r.users)
  {
    var stamped := adopter.(userID := Some(userID));
    t.(adopters := Put(t.adopters, userID, stamped), users := Put(t.users, userID, AdopterUser(stamped)))
  }

  /** `setAdopter(userID, adopter)`: as `SetPet`, on the adopters only. */
  function SetAdopter(t: Tables, userID: Uuid, adopter: Adopter): (r: Tables)
    ensures userID !in t.adopters ==> r == t
    ensures userID in t.adopters ==>
      && Get(r.adopters, userID) == Some(t.adopters[userID].ReplaceWith(adopter))
      && r.adopters.Keys == t.adopters.Keys
    ensures SameElsewhere(t.adopters, r.adopters, userID)
    ensures r == t.(adopters := r.adopters)
  {
    if userID in t.adopters then
      t.(adopters := Put(t.adopters, userID, t.adopters[userID].ReplaceWith(adopter)))
    else t
  }

  /** `removeAdopter(adopterID)`: removes the key from the adopters only; the
      adopter stays among the users and its requests stay filed. */
  function RemoveAdopter(t: Tables, adopterID: Uuid): (r: Tables)
    ensures adopterID !in t.adopters ==> r == t
    ensures Get(r.adopters, adopterID) == None
    ensures SameElsewhere(t.adopters, r.adopters, adopterID)
    ensures r.users == t.users && r.adoptionRequests == t.adoptionRequests
    ensures r == t.(adopters := r.adopters)
  {
    if adopterID in t.adopters then t.(adopters := Delete(t.adopters, adopterID)) else t
  }

  // ------------------------------------------------------ advertisements

  /** `addAdvertisement(advertisementID, advertisement)`: filed under the key
      exactly as given, its own identifier left untouched; no other table changes. */
  function AddAdvertisementWithId(t: Tables, advertisementID: Uuid, advertisement: Advertisement): (r: Tables)
    ensures Get(r.advertisements, advertisementID) == Some(advertisement)
    ensures SameElsewhere(t.advertisements, r.advertisements, advertisementID)
    ensures r == t.(advertisements := r.advertisements)
  {
    t.(advertisements := Put(t.advertisements, advertisementID, advertisement))
  }

  /** `setAdvertisement(advertisementID, advertisement)`: as `SetPet`, on the
      advertisements only. */
  function SetAdvertisement(t: Tables, advertisementID: Uuid, advertisement: Advertisement): (r: Tables)
    ensures advertisementID !in t.advertisements ==> r == t
    ensures advertisementID in t.advertisements ==>
      && Get(r.advertisements, advertisementID) == Some(t.advertisements[advertisementID].ReplaceWith(advertisement))
      && r.advertisements.Keys == t.advertisements.Keys
    ensures SameElsewhere(t.advertisements, r.advertisements, advertisementID)
    ensures r == t.(advertisements := r.advertisements)
  {
    if advertisementID in t.advertisements then
      t.(advertisements := Put(t.advertisements, advertisementID,
                               t.advertisements[advertisementID].ReplaceWith(advertisement)))
    else t
  }

  /** `removeAdvertisement(advertisementID)`: removes the key from the
      advertisements only; requests on that advertisement stay filed. */
  function RemoveAdvertisement(t: Tables, advertisementID: Uuid): (r: Tables)
    ensures advertisementID !in t.advertisements ==> r == t
    ensures Get(r.advertisements, advertisementID) == None
    ensures SameElsewhere(t.advertisements, r.advertisements, advertisementID)
    ensures r.adoptionRequests == t.adoptionRequests
    ensures r == t.(advertisements := r.advertisements)
  {
    if advertisementID in t.advertisements then
      t.(advertisements := Delete(t.advertisements, advertisementID))
    else t
  }

  // --------------------------------------------------- adoption requests

  /** `addAdoptionRequest(adoptionRequestID, adoptionRequest)`: filed under the
      key exactly as given, its own identifier left untouched. */
  function AddAdoptionRequestWithId(t: Tables, adoptionRequestID: Uuid, adoptionRequest: AdoptionRequest): (r: Tables)
    ensures Get(r.adoptionRequests, adoptionRequestID) == Some(adoptionRequest)
    ensures SameElsewhere(t.adoptionRequests, r.adoptionRequests, adoptionRequestID)
    ensures r == t.(adoptionRequests := r.adoptionRequests)
  {
    t.(adoptionRequests := Put(t.adoptionRequests, adoptionRequestID, adoptionRequest))
  }

  /** `setAdoptionRequest(adoptionRequestID, adoptionRequest)`: as `SetPet`, on
      the adoption requests only. */
  function SetAdoptionRequest(t: Tables, adoptionRequestID: Uuid, adoptionRequest: AdoptionRequest): (r: Tables)
    ensures adoptionRequestID !in t.adoptionRequests ==> r == t
    ensures adoptionRequestID in t.adoptionRequests ==>
      && Get(r.adoptionRequests, adoptionRequestID) == Some(t.adoptionRequests[adoptionRequestID].ReplaceWith(adoptionRequest))
      && r.adoptionRequests.Keys == t.adoptionRequests.Keys
    ensures SameElsewhere(t.adoptionRequests, r.adoptionRequests, adoptionRequestID)
    ensures r == t.(adoptionRequests := r.adoptionRequests)
  {
    if adoptionRequestID in t.adoptionRequests then
      t.(adoptionRequests := Put(t.adoptionRequests, adoptionRequestID,
                                 t.adoptionRequests[adoptionRequestID].ReplaceWith(adoptionRequest)))
    else t
  }

  /** `removeAdoptionRequest(adoptionRequestID)`: removes the key from the
      adoption requests only. */
  function RemoveAdoptionRequest(t: Tables, adoptionRequestID: Uuid): (r: Tables)
    ensures adoptionRequestID !in t.adoptionRequests ==> r == t
    ensures Get(r.adoptionRequests, adoptionRequestID) == None
    ensures SameElsewhere(t.adoptionRequests, r.adoptionRequests, adoptionRequestID)
    ensures r == t.(adoptionRequests := r.adoptionRequests)
  {
    if adoptionRequestID in t.adoptionRequests then
      t.(adoptionRequests := Delete(t.adoptionRequests, adoptionRequestID))
    else t
  }

  // ----------------------------------------------------------- round trips

  /** Adding a pet under a fresh key and removing it again restores every table. */
  lemma {:induction false} AddThenRemovePetRestores(t: Tables, petID: Uuid, pet: Pet)
    requires petID !in t.pets
    ensures RemovePet(AddPetWithId(t, petID, pet), petID) == t
  {
    DeleteUndoesPut(t.pets, petID, pet.(petID := Some(petID)));
  }

  /** Adding a pet owner under a fresh key and removing it again does NOT
      restore the tables: the owner is still among the users. */
  lemma {:induction false} AddThenRemovePetOwnerKeepsUser(t: Tables, userID: Uuid, petOwner: PetOwner)
    requires userID !in t.petOwners
    ensures var r := RemovePetOwner(AddPetOwnerWithId(t, userID, petOwner), userID);
      && r.petOwners == t.petOwners
      && Get(r.users, userID) == Some(OwnerUser(petOwner.(userID := Some(userID))))
      && r == t.(users := r.users)
  {
    DeleteUndoesPut(t.petOwners, userID, petOwner.(userID := Some(userID)));
  }

  /** Adding an adopter under a fresh key and removing it again leaves the
      adopter among the users. */
  lemma {:induction false} AddThenRemoveAdopterKeepsUser(t: Tables, userID: Uuid, adopter: Adopter)
    requires userID !in t.adopters
    ensures var r := RemoveAdopter(AddAdopterWithId(t, userID, adopter), userID);
      && r.adopters == t.adopters
      && Get(r.users, userID) == Some(AdopterUser(adopter.(userID := Some(userID))))
      && r == t.(users := r.users)
  {
    DeleteUndoesPut(t.adopters, userID, adopter.(userID := Some(userID)));
  }

  /** Updating a pet right after adding it gives what adding the update would
      have given: the stored pet keeps the key as identifier and takes the
      update's attributes. */
  lemma {:induction false} SetPetAfterAddPet(t: Tables, petID: Uuid, pet: Pet, update: Pet)
    ensures SetPet(AddPetWithId(t, petID, pet), petID, update) == AddPetWithId(t, petID, update)
  {
    var stamped := pet.(petID := Some(petID));
    assert stamped.ReplaceWith(update) == update.(petID := Some(petID));
    PutOverwrites(t.pets, petID, stamped, update.(petID := Some(petID)));
  }

  /** Adding an advertisement under a fresh key and removing it again restores
      every table. */
  lemma {:induction false} AddThenRemoveAdvertisementRestores(t: Tables, advertisementID: Uuid, advertisement: Advertisement)
    requires advertisementID !in t.advertisements
    ensures RemoveAdvertisement(AddAdvertisementWithId(t, advertisementID, advertisement), advertisementID) == t
  {
    DeleteUndoesPut(t.advertisements, advertisementID, advertisement);
  }

  /** Adding an adoption request under a fresh key and removing it again
      restores every table. */
  lemma {:induction false} AddThenRemoveAdoptionRequestRestores(
    t: Tables, adoptionRequestID: Uuid, adoptionRequest: AdoptionRequest)
    requires adoptionRequestID !in t.adoptionRequests
    ensures RemoveAdoptionRequest(AddAdoptionRequestWithId(t, adoptionRequestID, adoptionRequest), adoptionRequestID) == t
  {
    DeleteUndoesPut(t.adoptionRequests, adoptionRequestID, adoptionRequest);
  }

  /** Removing a pet owner leaves every advertisement that names it listed, so
      the advertisement now names an owner the registry no longer knows. */
  lemma RemovePetOwnerLeavesItsAdvertisements(t: Tables, petOwnerID: Uuid, advertisementID: Uuid)
    requires advertisementID in t.advertisements
    requires t.advertisements[advertisementID].info.petOwner.userID == Some(petOwnerID)
    ensures var r := RemovePetOwner(t, petOwnerID);
      && Get(r.advertisements, advertisementID) == Some(t.advertisements[advertisementID])
      && Get(r.petOwners, petOwnerID) == None
  {
  }

  // ------------------------------------------------------------ invariant

  /** What every operation keeps: each pet, pet owner and adopter is filed under
      its own identifier, and every pet owner and adopter key is also a key of
      `users`. Advertisements and requests are not stamped, so nothing ties
      their keys to their identifiers. */
  ghost predicate Consistent(t: Tables) {
    && (forall k :: k in t.pets ==> t.pets[k].petID == Some(k))
    && (forall k :: k in t.petOwners ==> t.petOwners[k].userID == Some(k))
    && (forall k :: k in t.adopters ==> t.adopters[k].userID == Some(k))
    && t.petOwners.Keys <= t.users.Keys
    && t.adopters.Keys <= t.users.Keys
  }

  lemma EmptyIsConsistent()
    ensures Consistent(Empty)
  {
  }
}
