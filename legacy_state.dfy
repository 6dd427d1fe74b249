/** The older draft's `ApplicationState` (package furrybuddy.domain): four
    tables updated in place, registration that throws before it changes
    anything, and `set` methods that only test membership. */
module LegacyState {
  import opened Entities
  import opened Table
  import opened LegacyRegistry

  class ApplicationState {
    var adopters: map<Uuid, Adopter>
    var petOwners: map<Uuid, PetOwner>
    var pets: map<Uuid, Pet>
    var users: map<Uuid, User>

    /** The four tables as one value. */
    function State(): Tables
      reads this
    {
      Tables(adopters, petOwners, pets, users)
    }

    ghost predicate Valid()
      reads this
    {
      Consistent(State())
    }

    /** The tables as `init` leaves them: four fresh maps and nothing else,
        since the seeding that follows throws at its first statement. */
    constructor ()
      ensures State() == Empty && Valid()
    {
      adopters, petOwners, pets, users := map[], map[], map[], map[];
      EmptyIsConsistent();
    }

    /** `init`: four fresh tables; then `populateApplicationState` throws at
        its first statement, `UUID.fromString("2b7da5cb")`, since that text is
        not a UUID, so nothing is ever seeded. */
    method Init() returns (thrown: Exception)
      modifies this
      ensures State() == Empty && Valid()
      ensures thrown == IllegalArgument("Invalid UUID string: 2b7da5cb")
    {
      adopters, petOwners, pets, users := map[], map[], map[], map[];
      EmptyIsConsistent();
      thrown := IllegalArgument("Invalid UUID string: " + "2b7da5cb");
    }

    // ---------------------------------------------------------------- pets

    /** `addPet(pet)`: files the pet under its own identifier when it has one,
        otherwise under `randomID`, and returns it stamped with that key. */
    method AddPet(pet: Pet, randomID: Uuid) returns (r: Pet)
      modifies this
      ensures r == pet.(petID := Some(KeyFor(pet.petID, randomID)))
      ensures State() == LegacyRegistry.AddPetWithId(old(State()), KeyFor(pet.petID, randomID), pet)
      ensures old(Valid()) ==> Valid()
    {
      if pet.petID.Some? {
        r := AddPetWithId(pet.petID.value, pet);
      } else {
        r := AddPetWithId(randomID, pet);
      }
    }

    method AddPetWithId(petID: Uuid, pet: Pet) returns (r: Pet)
      modifies this
      ensures r == pet.(petID := Some(petID))
      ensures State() == LegacyRegistry.AddPetWithId(old(State()), petID, pet)
      ensures old(Valid()) ==> Valid()
    {
      ghost var before := State();
      r := pet.(petID := Some(petID));
      pets := Put(pets, petID, r);
      if Consistent(before) {
        AddPetWithIdKeepsConsistent(before, petID, pet);
      }
    }

    /** `getPet`: the stored pet, or null when the key is absent. */
    method GetPet(petID: Uuid) returns (r: Option<Pet>)
      ensures r.Some? <==> petID in pets
      ensures r.Some? ==> r.value == pets[petID]
      ensures Valid() && r.Some? ==> r.value.petID == Some(petID)
    {
      r := Get(pets, petID);
    }

    /** `getAllPets`: the whole table. */
    method GetAllPets() returns (r: map<Uuid, Pet>)
      ensures r == pets
    {
      r := pets;
    }

    /** `setPet(petID, pet)`: whether `petID` is a key; with `replaceWith`
        commented out, nothing is changed either way. */
    method SetPet(petID: Uuid, pet: Pet) returns (ok: bool)
      ensures ok <==> petID in pets
    {
      var stored := Get(pets, petID);
      return stored.Some?;
    }

    /** `removePet(petID)`: false, with nothing changed, when `petID` is
        absent; otherwise the key leaves the pets and the result is true. */
    method RemovePet(petID: Uuid) returns (ok: bool)
      modifies this
      ensures ok <==> petID in old(pets)
      ensures !ok ==> State() == old(State())
      ensures State() == LegacyRegistry.RemovePet(old(State()), petID)
      ensures old(Valid()) ==> Valid()
    {
      ghost var before := State();
      var stored := Get(pets, petID);
      if stored.None? {
        return false;
      }
      pets := Delete(pets, petID);
      if Consistent(before) {
        RemovePetKeepsConsistent(before, petID);
      }
      return true;
    }

    // -------------------------------------------------------- pet owners

    /** `addPetOwner(petOwner)`: registers under the owner's own identifier when it has
        one, otherwise under `randomID`; fails exactly as the two-argument form. */
    method AddPetOwner(petOwner: PetOwner, randomID: Uuid) returns (r: Result<PetOwner>)
      modifies this
      ensures var res := LegacyRegistry.AddPetOwnerWithId(old(State()), KeyFor(petOwner.userID, randomID), petOwner);
        && (res.Err? ==> r == Err(res.error) && State() == old(State()))
        && (res.Ok? ==> r == Ok(petOwner.(userID := Some(KeyFor(petOwner.userID, randomID)))) && State() == res.value)
      ensures old(Valid()) ==> Valid()
    {
      if petOwner.userID.Some? {
        r := AddPetOwnerWithId(petOwner.userID.value, petOwner);
      } else {
        r := AddPetOwnerWithId(randomID, petOwner);
      }
    }

    /** `addPetOwner(userID, petOwner)`: the registration guards, then the owner is
        stamped and filed under `userID` among the pet owners and the users; a
        failing guard throws before anything changes. */
    method AddPetOwnerWithId(userID: Uuid, petOwner: PetOwner) returns (r: Result<PetOwner>)
      modifies this
      ensures var res := LegacyRegistry.AddPetOwnerWithId(old(State()), userID, petOwner);
        && (res.Err? ==> r == Err(res.error) && State() == old(State()))
        && (res.Ok? ==> r == Ok(petOwner.(userID := Some(userID))) && State() == res.value)
      ensures old(Valid()) ==> Valid()
    {
      ghost var before := State();
      var email := petOwner.info.email;
      if email.None? || IsBlank(email.value) {
        return Err(IllegalArgument(PetOwnerMessages.blankEmail));
      }
      var found := ContainsEmailKey(users, email.value);
      if found.Err? {
        return Err(found.error);
      }
      if found.value {
        return Err(IllegalArgument(PetOwnerMessages.emailExists));
      }
      if petOwner.info.password.None? || IsBlank(petOwner.info.password.value) {
        return Err(IllegalArgument(PetOwnerMessages.blankPassword));
      }
      var stamped := petOwner.(userID := Some(userID));
      petOwners := Put(petOwners, userID, stamped);
      users := Put(users, userID, OwnerUser(stamped));
      if Consistent(before) {
        AddPetOwnerWithIdKeepsConsistent(before, userID, petOwner);
      }
      return Ok(stamped);
    }

    /** `getPetOwner`: the stored owner, or null when the key is absent. */
    method GetPetOwner(userID: Uuid) returns (r: Option<PetOwner>)
      ensures r.Some? <==> userID in petOwners
      ensures r.Some? ==> r.value == petOwners[userID]
      ensures Valid() && r.Some? ==> r.value.userID == Some(userID)
    {
      r := Get(petOwners, userID);
    }

    /** `getAllPetOwners`: the whole table. */
    method GetAllPetOwners() returns (r: map<Uuid, PetOwner>)
      ensures r == petOwners
    {
      r := petOwners;
    }

    /** `setPetOwner(userID, petOwner)`: looks up the identifier the payload carries,
        not `userID`: a null one throws NullPointerException, otherwise the
        result says whether it is a key. Nothing is changed either way. */
    method SetPetOwner(userID: Uuid, petOwner: PetOwner) returns (r: Result<bool>)
      ensures petOwner.userID.None? ==> r == Err(NullPointer)
      ensures petOwner.userID.Some? ==> r == Ok(petOwner.userID.value in petOwners)
    {
      if petOwner.userID.None? {
        return Err(NullPointer);
      }
      var stored := Get(petOwners, petOwner.userID.value);
      return Ok(stored.Some?);
    }

    /** `removePetOwner(petOwnerID)`: false, with nothing changed, when `petOwnerID` is
        absent; otherwise the key leaves the pet owners (not the users) and the
        result is true. */
    method RemovePetOwner(petOwnerID: Uuid) returns (ok: bool)
      modifies this
      ensures ok <==> petOwnerID in old(petOwners)
      ensures !ok ==> State() == old(State())
      ensures State() == LegacyRegistry.RemovePetOwner(old(State()), petOwnerID)
      ensures old(Valid()) ==> Valid()
    {
      ghost var before := State();
      var stored := Get(petOwners, petOwnerID);
      if stored.None? {
        return false;
      }
      petOwners := Delete(petOwners, petOwnerID);
      if Consistent(before) {
        RemovePetOwnerKeepsConsistent(before, petOwnerID);
      }
      return true;
    }

    // ---------------------------------------------------------- adopters

    /** `addAdopter(adopter)`: registers under the adopter's own identifier when it has
        one, otherwise under `randomID`; fails exactly as the two-argument form. */
    method AddAdopter(adopter: Adopter, randomID: Uuid) returns (r: Result<Adopter>)
      modifies this
      ensures var res := LegacyRegistry.AddAdopterWithId(old(State()), KeyFor(adopter.userID, randomID), adopter);
        && (res.Err? ==> r == Err(res.error) && State() == old(State()))
        && (res.Ok? ==> r == Ok(adopter.(userID := Some(KeyFor(adopter.userID, randomID)))) && State() == res.value)
      ensures old(Valid()) ==> Valid()
    {
      if adopter.userID.Some? {
        r := AddAdopterWithId(adopter.userID.value, adopter);
      } else {
        r := AddAdopterWithId(randomID, adopter);
      }
    }

    /** `addAdopter(userID, adopter)`: the registration guards, then the adopter is
        stamped and filed under `userID` among the adopters and the users; a
        failing guard throws before anything changes. */
    method AddAdopterWithId(userID: Uuid, adopter: Adopter) returns (r: Result<Adopter>)
      modifies this
      ensures var res := LegacyRegistry.AddAdopterWithId(old(State()), userID, adopter);
        && (res.Err? ==> r == Err(res.error) && State() == old(State()))
        && (res.Ok? ==> r == Ok(adopter.(userID := Some(userID))) && State() == res.value)
      ensures old(Valid()) ==> Valid()
    {
      ghost var before := State();
      var email := adopter.info.email;
      if email.None? || IsBlank(email.value) {
        return Err(IllegalArgument(AdopterMessages.blankEmail));
      }
      var found := ContainsEmailKey(users, email.value);
      if found.Err? {
        return Err(found.error);
      }
      if found.value {
        return Err(IllegalArgument(AdopterMessages.emailExists));
      }
      if adopter.info.password.None? || IsBlank(adopter.info.password.value) {
        return Err(IllegalArgument(AdopterMessages.blankPassword));
      }
      var stamped := adopter.(userID := Some(userID));
      adopters := Put(adopters, userID, stamped);
      users := Put(users, userID, AdopterUser(stamped));
      if Consistent(before) {
        AddAdopterWithIdKeepsConsistent(before, userID, adopter);
      }
      return Ok(stamped);
    }

    /** `getAdopter`: the stored adopter, or null when the key is absent. */
    method GetAdopter(userID: Uuid) returns (r: Option<Adopter>)
      ensures r.Some? <==> userID in adopters
      ensures r.Some? ==> r.value == adopters[userID]
      ensures Valid() && r.Some? ==> r.value.userID == Some(userID)
    {
      r := Get(adopters, userID);
    }

    /** `getAllAdopters`: the whole table. */
    method GetAllAdopters() returns (r: map<Uuid, Adopter>)
      ensures r == adopters
    {
      r := adopters;
    }

    /** `setAdopter(userID, adopter)`: looks up the identifier the payload carries,
        not `userID`: a null one throws NullPointerException, otherwise the
        result says whether it is a key. Nothing is changed either way. */
    method SetAdopter(userID: Uuid, adopter: Adopter) returns (r: Result<bool>)
      ensures adopter.userID.None? ==> r == Err(NullPointer)
      ensures adopter.userID.Some? ==> r == Ok(adopter.userID.value in adopters)
    {
      if adopter.userID.None? {
        return Err(NullPointer);
      }
      var stored := Get(adopters, adopter.userID.value);
      return Ok(stored.Some?);
    }

    /** `removeAdopter(adopterID)`: false, with nothing changed, when `adopterID` is
        absent; otherwise the key leaves the adopters (not the users) and the
        result is true. */
    method RemoveAdopter(adopterID: Uuid) returns (ok: bool)
      modifies this
      ensures ok <==> adopterID in old(adopters)
      ensures !ok ==> State() == old(State())
      ensures State() == LegacyRegistry.RemoveAdopter(old(State()), adopterID)
      ensures old(Valid()) ==> Valid()
    {
      ghost var before := State();
      var stored := Get(adopters, adopterID);
      if stored.None? {
        return false;
      }
      adopters := Delete(adopters, adopterID);
      if Consistent(before) {
        RemoveAdopterKeepsConsistent(before, adopterID);
      }
      return true;
    }
  }
}
