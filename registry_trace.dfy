/** Any sequence of state-changing calls on the newer draft's registry,
    `init` included, and what holds however the calls are interleaved: the
    invariant is kept by every call; between two calls of `init` the `users`
    table never loses a key and nothing cascades; `init` itself forgets every
    user, advertisement and request outside the seed. */
module RegistryTrace {
  import opened Entities
  import opened Table
  import opened Registry
  import opened RegistrySeed

  /** One call of an entity operation. The one-argument `add` overloads are
      not listed: each of them is a two-argument `add` under `KeyFor`. */
  datatype Call =
    | AddPetCall(id: Uuid, pet: Pet)
    | SetPetCall(id: Uuid, pet: Pet)
    | RemovePetCall(id: Uuid)
    | AddPetOwnerCall(id: Uuid, petOwner: PetOwner)
    | SetPetOwnerCall(id: Uuid, petOwner: PetOwner)
    | RemovePetOwnerCall(id: Uuid)
    | AddAdopterCall(id: Uuid, adopter: Adopter)
    | SetAdopterCall(id: Uuid, adopter: Adopter)
    | RemoveAdopterCall(id: Uuid)
    | AddAdvertisementCall(id: Uuid, advertisement: Advertisement)
    | SetAdvertisementCall(id: Uuid, advertisement: Advertisement)
    | RemoveAdvertisementCall(id: Uuid)
    | AddAdoptionRequestCall(id: Uuid, adoptionRequest: AdoptionRequest)
    | SetAdoptionRequestCall(id: Uuid, adoptionRequest: AdoptionRequest)
    | RemoveAdoptionRequestCall(id: Uuid)

  /** One state-changing call: `init`, which is public and may be called again
      at any time, or an entity operation. */
  datatype Op = InitOp | CallOp(call: Call)

  function Apply(t: Tables, c: Call): Tables {
    match c
    case AddPetCall(id, p) => AddPetWithId(t, id, p)
    case SetPetCall(id, p) => SetPet(t, id, p)
    case RemovePetCall(id) => RemovePet(t, id)
    case AddPetOwnerCall(id, o) => AddPetOwnerWithId(t, id, o)
    case SetPetOwnerCall(id, o) => SetPetOwner(t, id, o)
    case RemovePetOwnerCall(id) => RemovePetOwner(t, id)
    case AddAdopterCall(id, a) => AddAdopterWithId(t, id, a)
    case SetAdopterCall(id, a) => SetAdopter(t, id, a)
    case RemoveAdopterCall(id) => RemoveAdopter(t, id)
    case AddAdvertisementCall(id, ad) => AddAdvertisementWithId(t, id, ad)
    case SetAdvertisementCall(id, ad) => SetAdvertisement(t, id, ad)
    case RemoveAdvertisementCall(id) => RemoveAdvertisement(t, id)
    case AddAdoptionRequestCall(id, r) => AddAdoptionRequestWithId(t, id, r)
    case SetAdoptionRequestCall(id, r) => SetAdoptionRequest(t, id, r)
    case RemoveAdoptionRequestCall(id) => RemoveAdoptionRequest(t, id)
  }

  function Step(t: Tables, op: Op): Tables {
    match op
    case InitOp => Seed()
    case CallOp(c) => Apply(t, c)
  }

  /** The tables after the calls `ops`, in order. */
  function Run(t: Tables, ops: seq<Op>): Tables
    decreases |ops|
  {
    if ops == [] then t else Run(Step(t, ops[0]), ops[1..])
  }

  /** Every single call, `init` included, keeps `Consistent`. */
  lemma {:induction false} StepKeepsConsistent(t: Tables, op: Op)
    requires Consistent(t)
    ensures Consistent(Step(t, op))
  {
    match op
    case InitOp => SeedIsConsistent();
    case CallOp(c) => ApplyKeepsConsistent(t, c);
  }

  /** Every entity operation keeps `Consistent`. */
  lemma {:induction false} ApplyKeepsConsistent(t: Tables, c: Call)
    requires Consistent(t)
    ensures Consistent(Apply(t, c))
  {
    match c
    case AddPetCall(id, p) => AddPetWithIdKeepsConsistent(t, id, p);
    case SetPetCall(id, p) => SetPetKeepsConsistent(t, id, p);
    case AddPetOwnerCall(id, o) => AddPetOwnerWithIdKeepsConsistent(t, id, o);
    case SetPetOwnerCall(id, o) => SetPetOwnerKeepsConsistent(t, id, o);
    case AddAdopterCall(id, a) => AddAdopterWithIdKeepsConsistent(t, id, a);
    case SetAdopterCall(id, a) => SetAdopterKeepsConsistent(t, id, a);
    case _ =>
  }

  lemma {:induction false} AddPetWithIdKeepsConsistent(t: Tables, id: Uuid, p: Pet)
    requires Consistent(t)
    ensures Consistent(AddPetWithId(t, id, p))
  {
    var r := AddPetWithId(t, id, p);
    forall k | k in r.pets ensures r.pets[k].petID == Some(k) {
      if k != id { assert Get(r.pets, k) == Get(t.pets, k); }
    }
  }

  lemma {:induction false} SetPetKeepsConsistent(t: Tables, id: Uuid, p: Pet)
    requires Consistent(t)
    ensures Consistent(SetPet(t, id, p))
  {
    var r := SetPet(t, id, p);
    forall k | k in r.pets ensures r.pets[k].petID == Some(k) {
      if k != id { assert Get(r.pets, k) == Get(t.pets, k); }
    }
  }

  lemma {:induction false} AddPetOwnerWithIdKeepsConsistent(t: Tables, id: Uuid, o: PetOwner)
    requires Consistent(t)
    ensures Consistent(AddPetOwnerWithId(t, id, o))
  {
    var r := AddPetOwnerWithId(t, id, o);
    forall k | k in r.petOwners ensures r.petOwners[k].userID == Some(k) {
      if k != id { assert Get(r.petOwners, k) == Get(t.petOwners, k); }
    }
  }

  lemma {:induction false} SetPetOwnerKeepsConsistent(t: Tables, id: Uuid, o: PetOwner)
    requires Consistent(t)
    ensures Consistent(SetPetOwner(t, id, o))
  {
    var r := SetPetOwner(t, id, o);
    forall k | k in r.petOwners ensures r.petOwners[k].userID == Some(k) {
      if k != id { assert Get(r.petOwners, k) == Get(t.petOwners, k); }
    }
  }

  lemma {:induction false} AddAdopterWithIdKeepsConsistent(t: Tables, id: Uuid, a: Adopter)
    requires Consistent(t)
    ensures Consistent(AddAdopterWithId(t, id, a))
  {
    var r := AddAdopterWithId(t, id, a);
    forall k | k in r.adopters ensures r.adopters[k].userID == Some(k) {
      if k != id { assert Get(r.adopters, k) == Get(t.adopters, k); }
    }
  }

  lemma {:induction false} SetAdopterKeepsConsistent(t: Tables, id: Uuid, a: Adopter)
    requires Consistent(t)
    ensures Consistent(SetAdopter(t, id, a))
  {
    var r := SetAdopter(t, id, a);
    forall k | k in r.adopters ensures r.adopters[k].userID == Some(k) {
      if k != id { assert Get(r.adopters, k) == Get(t.adopters, k); }
    }
  }

  /** Any sequence of calls keeps `Consistent`. */
  lemma {:induction false} RunKeepsConsistent(t: Tables, ops: seq<Op>)
    requires Consistent(t)
    ensures Consistent(Run(t, ops))
    decreases |ops|
  {
    if ops != [] {
      StepKeepsConsistent(t, ops[0]);
      RunKeepsConsistent(Step(t, ops[0]), ops[1..]);
    }
  }

  /** No entity operation removes a key from `users`. */
  lemma {:induction false} ApplyKeepsUsers(t: Tables, c: Call)
    ensures t.users.Keys <= Apply(t, c).users.Keys
  {
  }

  /** As long as `init` is not called again, a user once filed stays filed:
      `users` only grows. */
  lemma {:induction false} UsersOnlyGrow(t: Tables, ops: seq<Op>)
    requires forall i :: 0 <= i < |ops| ==> ops[i].CallOp?
    ensures t.users.Keys <= Run(t, ops).users.Keys
    decreases |ops|
  {
    if ops != [] {
      var s := Apply(t, ops[0].call);
      assert Step(t, ops[0]) == s;
      ApplyKeepsUsers(t, ops[0].call);
      UsersOnlyGrow(s, ops[1..]);
    }
  }

  /** No entity operation but the two own-table removals takes away an
      advertisement or a request. */
  lemma {:induction false} ApplyKeepsListings(t: Tables, c: Call)
    requires !c.RemoveAdvertisementCall? && !c.RemoveAdoptionRequestCall?
    ensures t.advertisements.Keys <= Apply(t, c).advertisements.Keys
    ensures t.adoptionRequests.Keys <= Apply(t, c).adoptionRequests.Keys
  {
  }

  /** Besides `init`, only `removeAdvertisement` takes an advertisement away,
      and only `removeAdoptionRequest` a request: removing a pet, an owner, an
      adopter or an advertisement never removes anything else. */
  lemma {:induction false} NothingCascades(t: Tables, ops: seq<Op>)
    requires forall i :: 0 <= i < |ops| ==> ops[i].CallOp?
    requires forall i :: 0 <= i < |ops| ==> !ops[i].call.RemoveAdvertisementCall?
    requires forall i :: 0 <= i < |ops| ==> !ops[i].call.RemoveAdoptionRequestCall?
    ensures t.advertisements.Keys <= Run(t, ops).advertisements.Keys
    ensures t.adoptionRequests.Keys <= Run(t, ops).adoptionRequests.Keys
    decreases |ops|
  {
    if ops != [] {
      var s := Apply(t, ops[0].call);
      assert Step(t, ops[0]) == s;
      ApplyKeepsListings(t, ops[0].call);
      NothingCascades(s, ops[1..]);
    }
  }

  /** `init`, called on tables already in use, forgets everything outside the
      seed: afterwards exactly the four seed users, the two seed advertisements
      and no request are filed, whatever was filed before. */
  lemma {:induction false} InitForgetsAllButSeed(t: Tables, userID: Uuid, advertisementID: Uuid)
    ensures Step(t, InitOp).users.Keys == {AliceID, BernardID, BobID, JaneID}
    ensures Step(t, InitOp).advertisements.Keys == {AdvertisementForPepperID, AdvertisementForSimbaID}
    ensures Step(t, InitOp).adoptionRequests == map[]
    ensures userID in t.users && userID !in {AliceID, BernardID, BobID, JaneID} ==>
      userID !in Step(t, InitOp).users
    ensures (advertisementID in t.advertisements &&
             advertisementID !in {AdvertisementForPepperID, AdvertisementForSimbaID}) ==>
      advertisementID !in Step(t, InitOp).advertisements
  {
    SeedContents();
  }
}
