/** The older draft of the FurryBuddy registry (package furrybuddy.domain) as
    values: four tables, registration guarded by checks on the e-mail address
    and the password, and removal from one table at a time. */
module LegacyRegistry {
  import opened Entities
  import opened Table

  /** The four `TreeMap<UUID, _>` fields of the older `ApplicationState`. */
  datatype Tables = Tables(
    adopters: map<Uuid, Adopter>,
    petOwners: map<Uuid, PetOwner>,
    pets: map<Uuid, Pet>,
    users: map<Uuid, User>)

  const Empty := Tables(map[], map[], map[], map[])

  /** The Java exceptions the older draft can raise. */
  datatype Exception =
    | IllegalArgument(message: string)
    | ClassCast      // a String compared with a UUID key of a TreeMap
    | NullPointer    // a null key looked up in a TreeMap

  datatype Result<T> = Ok(value: T) | Err(error: Exception)

  /** `users.containsKey(email)`, where `users` is a `TreeMap` keyed by UUID and
      `email` a String. An empty tree answers false without comparing anything;
      a non-empty one compares the String with a UUID key, and that comparison
      throws. The answer is never true. */
  function ContainsEmailKey(users: map<Uuid, User>, email: string): (r: Result<bool>)
    ensures r != Ok(true)
    ensures r.Ok? <==> users == map[]
    ensures users != map[] ==> r == Err(ClassCast)
  {
    if users == map[] then Ok(false) else Err(ClassCast)
  }

  /** The three messages of one registration guard. */
  datatype Messages = Messages(blankEmail: string, emailExists: string, blankPassword: string)

  const PetOwnerMessages := Messages(
    "PetOwner email is null or empty",
    "PetOwner email already exists",
    "PetOwner password is null or empty")

  const AdopterMessages := Messages(
    "Adopter email is null or empty",
    "Adopter email already exists",
    "adopter password is null or empty")

  /** The guards of `addPetOwner(userID, _)` and `addAdopter(userID, _)`, in
      source order: the e-mail must be neither null nor blank, it must not be a
      key of `users`, and the password must be neither null nor blank. `None`
      when every guard passes, otherwise the exception the first failing guard
      throws. The e-mail is checked before anything else; the password is
      checked only once the e-mail guards pass, which happens only while
      `users` is empty; and the "already exists" message is never produced. */
  function CheckRegistration(users: map<Uuid, User>, info: UserInfo, messages: Messages): (r: Option<Exception>)
    ensures IsNullOrBlank(info.email) ==> r == Some(IllegalArgument(messages.blankEmail))
    ensures !IsNullOrBlank(info.email) && users != map[] ==> r == Some(ClassCast)
    ensures !IsNullOrBlank(info.email) && users == map[] && IsNullOrBlank(info.password) ==>
      r == Some(IllegalArgument(messages.blankPassword))
    ensures r == None <==> !IsNullOrBlank(info.email) && users == map[] && !IsNullOrBlank(info.password)
  {
    if IsNullOrBlank(info.email) then
      Some(IllegalArgument(messages.blankEmail))
    else
      match ContainsEmailKey(users, info.email.value)
      case Err(e) => Some(e)
      case Ok(found) =>
        if found then Some(IllegalArgument(messages.emailExists))
        else if IsNullOrBlank(info.password) then Some(IllegalArgument(messages.blankPassword))
        else None
  }

  /** The duplicate-email guard never fires: whatever the tables and the user,
      registration does not fail with the "already exists" message. */
  lemma {:induction false} DuplicateEmailNeverReported(users: map<Uuid, User>, info: UserInfo, messages: Messages)
    requires messages.emailExists != messages.blankEmail
    requires messages.emailExists != messages.blankPassword
    ensures CheckRegistration(users, info, messages) != Some(IllegalArgument(messages.emailExists))
  {
  }

  // ---------------------------------------------------------------- pets

  /** `addPet(petID, pet)`: the pet is stamped with `petID` and filed under it,
      overwriting any earlier entry; no other table changes. */
  function AddPetWithId(t: Tables, petID: Uuid, pet: Pet): (r: Tables)
    ensures Get(r.pets, petID) == Some(pet.(petID := Some(petID)))
    ensures SameElsewhere(t.pets, r.pets, petID)
    ensures r == t.(pets := r.pets)
  {
    t.(pets := Put(t.pets, petID, pet.(petID := Some(petID))))
  }

  /** `removePet(petID)`: afterwards `petID` finds no pet, every other key finds
      what it found before, and no other table changes. */
  function RemovePet(t: Tables, petID: Uuid): (r: Tables)
    ensures petID !in t.pets ==> r == t
    ensures Get(r.pets, petID) == None
    ensures SameElsewhere(t.pets, r.pets, petID)
    ensures r == t.(pets := r.pets)
  {
    if petID in t.pets then t.(pets := Delete(t.pets, petID)) else t
  }

  // ---------------------------------------------------------- pet owners

  /** `addPetOwner(userID, petOwner)`: when a guard fails, its exception and no
      change; otherwise the owner is stamped with `userID` and filed under it
      among the pet owners and among the users, and no other table changes. */
  function AddPetOwnerWithId(t: Tables, userID: Uuid, petOwner: PetOwner): (r: Result<Tables>)
    ensures r.Err? <==> CheckRegistration(t.users, petOwner.info, PetOwnerMessages).Some?
    ensures r.Err? ==> Some(r.error) == CheckRegistration(t.users, petOwner.info, PetOwnerMessages)
    ensures r.Ok? ==>
      && Get(r.value.petOwners, userID) == Some(petOwner.(userID := Some(userID)))
      && Get(r.value.users, userID) == Some(OwnerUser(petOwner.(userID := Some(userID))))
      && SameElsewhere(t.petOwners, r.value.petOwners, userID)
      && SameElsewhere(t.users, r.value.users, userID)
      && r.value == t.(petOwners := r.value.petOwners, users := r.value.users)
  {
    match CheckRegistration(t.users, petOwner.info, PetOwnerMessages)
    case Some(e) => Err(e)
    case None =>
      var stamped := petOwner.(userID := Some(userID));
      Ok(t.(petOwners := Put(t.petOwners, userID, stamped), users := Put(t.users, userID, OwnerUser(stamped))))
  }

  /** `removePetOwner(petOwnerID)`: removes the key from the pet owners only;
      the owner stays among the users. */
  function RemovePetOwner(t: Tables, petOwnerID: Uuid): (r: Tables)
    ensures petOwnerID !in t.petOwners ==> r == t
    ensures Get(r.petOwners, petOwnerID) == None
    ensures SameElsewhere(t.petOwners, r.petOwners, petOwnerID)
    ensures r.users == t.users
    ensures r == t.(petOwners := r.petOwners)
  {
    if petOwnerID in t.petOwners then t.(petOwners := Delete(t.petOwners, petOwnerID)) else t
  }

  // ------------------------------------------------------------ adopters

  /** `addAdopter(userID, adopter)`: as `AddPetOwnerWithId`, with the adopter
      guard's messages, filing among the adopters and the users. */
  function AddAdopterWithId(t: Tables, userID: Uuid, adopter: Adopter): (r: Result<Tables>)
    ensures r.Err? <==> CheckRegistration(t.users, adopter.info, AdopterMessages).Some?
    ensures r.Err? ==> Some(r.error) == CheckRegistration(t.users, adopter.info, AdopterMessages)
    ensures r.Ok? ==>
      && Get(r.value.adopters, userID) == Some(adopter.(userID := Some(userID)))
      && Get(r.value.users, userID) == Some(AdopterUser(adopter.(userID := Some(userID))))
      && SameElsewhere(t.adopters, r.value.adopters, userID)
      && SameElsewhere(t.users, r.value.users, userID)
      && r.value == t.(adopters := r.value.adopters, users := r.value.users)
  {
    match CheckRegistration(t.users, adopter.info, AdopterMessages)
    case Some(e) => Err(e)
    case None =>
      var stamped := adopter.(userID := Some(userID));
      Ok(t.(adopters := Put(t.adopters, userID, stamped), users := Put(t.users, userID, AdopterUser(stamped))))
  }

  /** `removeAdopter(adopterID)`: removes the key from the adopters only; the
      adopter stays among the users. */
  function RemoveAdopter(t: Tables, adopterID: Uuid): (r: Tables)
    ensures adopterID !in t.adopters ==> r == t
    ensures Get(r.adopters, adopterID) == None
    ensures SameElsewhere(t.adopters, r.adopters, adopterID)
    ensures r.users == t.users
    ensures r == t.(adopters := r.adopters)
  {
    if adopterID in t.adopters then t.(adopters := Delete(t.adopters, adopterID)) else t
  }

  // ------------------------------------------------- consequences of the guard

  /** Once one pet owner has registered, every later registration of a pet
      owner or an adopter whose e-mail is present throws ClassCastException,
      whether or not its e-mail is the one already registered. */
  lemma {:induction false} RegistrationAfterOwnerThrows(
    t: Tables, userID: Uuid, petOwner: PetOwner, nextID: Uuid, nextOwner: PetOwner, nextAdopter: Adopter)
    requires AddPetOwnerWithId(t, userID, petOwner).Ok?
    ensures var t' := AddPetOwnerWithId(t, userID, petOwner).value;
      && (!IsNullOrBlank(nextOwner.info.email) ==> AddPetOwnerWithId(t', nextID, nextOwner) == Err(ClassCast))
      && (!IsNullOrBlank(nextAdopter.info.email) ==> AddAdopterWithId(t', nextID, nextAdopter) == Err(ClassCast))
  {
    var t' := AddPetOwnerWithId(t, userID, petOwner).value;
    assert userID in t'.users;
  }

  /** A successful registration needs an empty `users` table and leaves exactly
      one entry in it. */
  lemma {:induction false} RegistrationNeedsNoUsers(t: Tables, userID: Uuid, petOwner: PetOwner, adopter: Adopter)
    ensures AddPetOwnerWithId(t, userID, petOwner).Ok? ==>
      t.users == map[] && AddPetOwnerWithId(t, userID, petOwner).value.users.Keys == {userID}
    ensures AddAdopterWithId(t, userID, adopter).Ok? ==>
      t.users == map[] && AddAdopterWithId(t, userID, adopter).value.users.Keys == {userID}
  {
    var o := AddPetOwnerWithId(t, userID, petOwner);
    if o.Ok? {
      assert t.users == map[];
      assert o.value.users.Keys == t.users.Keys + {userID};
    }
    var a := AddAdopterWithId(t, userID, adopter);
    if a.Ok? {
      assert t.users == map[];
      assert a.value.users.Keys == t.users.Keys + {userID};
    }
  }

  // ------------------------------------------------------------ invariant

  /** What every operation of the older draft keeps: each pet, pet owner and
      adopter is filed under its own identifier, every pet owner and adopter
      key is a key of `users`, and `users` never holds more than one entry,
      since the e-mail guard lets a registration through only while `users` is
      empty. */
  ghost predicate Consistent(t: Tables) {
    && (forall k :: k in t.pets ==> t.pets[k].petID == Some(k))
    && (forall k :: k in t.petOwners ==> t.petOwners[k].userID == Some(k))
    && (forall k :: k in t.adopters ==> t.adopters[k].userID == Some(k))
    && t.petOwners.Keys <= t.users.Keys
    && t.adopters.Keys <= t.users.Keys
    && |t.users| <= 1
  }

  lemma EmptyIsConsistent()
    ensures Consistent(Empty)
  {
  }

  lemma {:induction false} AddPetWithIdKeepsConsistent(t: Tables, petID: Uuid, pet: Pet)
    requires Consistent(t)
    ensures Consistent(AddPetWithId(t, petID, pet))
  {
    var r := AddPetWithId(t, petID, pet);
    forall k | k in r.pets ensures r.pets[k].petID == Some(k) {
      if k != petID { assert Get(r.pets, k) == Get(t.pets, k); }
    }
  }

  lemma {:induction false} RemovePetKeepsConsistent(t: Tables, petID: Uuid)
    requires Consistent(t)
    ensures Consistent(RemovePet(t, petID))
  {
    var r := RemovePet(t, petID);
    forall k | k in r.pets ensures r.pets[k].petID == Some(k) {
      assert Get(r.pets, k) == Get(t.pets, k);
    }
  }

  /** A registered user is the only user: `users` holds exactly its key. */
  lemma {:induction false} AddPetOwnerWithIdKeepsConsistent(t: Tables, userID: Uuid, petOwner: PetOwner)
    requires Consistent(t)
    ensures AddPetOwnerWithId(t, userID, petOwner).Ok? ==> Consistent(AddPetOwnerWithId(t, userID, petOwner).value)
  {
    var res := AddPetOwnerWithId(t, userID, petOwner);
    if res.Ok? {
      var r := res.value;
      RegistrationNeedsNoUsers(t, userID, petOwner, Adopter(None, petOwner.info));
      assert t.petOwners == map[];
      assert r.petOwners.Keys == {userID};
      assert |r.users| == 1 by { assert r.users.Keys == {userID}; }
    }
  }

  lemma {:induction false} RemovePetOwnerKeepsConsistent(t: Tables, petOwnerID: Uuid)
    requires Consistent(t)
    ensures Consistent(RemovePetOwner(t, petOwnerID))
  {
    var r := RemovePetOwner(t, petOwnerID);
    forall k | k in r.petOwners ensures r.petOwners[k].userID == Some(k) {
      assert Get(r.petOwners, k) == Get(t.petOwners, k);
    }
  }

  lemma {:induction false} AddAdopterWithIdKeepsConsistent(t: Tables, userID: Uuid, adopter: Adopter)
    requires Consistent(t)
    ensures AddAdopterWithId(t, userID, adopter).Ok? ==> Consistent(AddAdopterWithId(t, userID, adopter).value)
  {
    var res := AddAdopterWithId(t, userID, adopter);
    if res.Ok? {
      var r := res.value;
      RegistrationNeedsNoUsers(t, userID, PetOwner(None, adopter.info), adopter);
      assert t.adopters == map[];
      assert r.adopters.Keys == {userID};
      assert |r.users| == 1 by { assert r.users.Keys == {userID}; }
    }
  }

  lemma {:induction false} RemoveAdopterKeepsConsistent(t: Tables, adopterID: Uuid)
    requires Consistent(t)
    ensures Consistent(RemoveAdopter(t, adopterID))
  {
    var r := RemoveAdopter(t, adopterID);
    forall k | k in r.adopters ensures r.adopters[k].userID == Some(k) {
      assert Get(r.adopters, k) == Get(t.adopters, k);
    }
  }

  /** Adding a pet under a fresh key and removing it again restores every table. */
  lemma {:induction false} AddThenRemovePetRestores(t: Tables, petID: Uuid, pet: Pet)
    requires petID !in t.pets
    ensures RemovePet(AddPetWithId(t, petID, pet), petID) == t
  {
    DeleteUndoesPut(t.pets, petID, pet.(petID := Some(petID)));
  }
}
