/** The demonstration data the newer draft's `init` loads through
    `populateApplicationState`: three pets, two pet owners, two adopters and
    two advertisements, each under a fixed identifier. */
module RegistrySeed {
  import opened Entities
  import opened Table
  import opened Registry

  const PepperID := Uuid(0xb8d0_c81d_e1c6_4708, 0xbd02_d218_a23e_4805)
  const NalaID := Uuid(0x358e_3775_682a_4b85, 0xa2e1_d3bf_0632_baea)
  const SimbaID := Uuid(0x1779_2447_fd66_464b, 0xb27c_615a_7d42_0d05)
  const AliceID := Uuid(0xd79b_117e_6cd5_44f0, 0x8ab0_8c87_ccda_04f0)
  const BernardID := Uuid(0xc349_8ff2_92af_4bf0, 0xb6a2_6230_baba_08f6)
  const BobID := Uuid(0x312e_2c8e_893a_4cbf, 0xb0e3_f141_2ad8_a9c2)
  const JaneID := Uuid(0xfb14_8060_61a6_4ca2, 0x9ba0_ff88_3173_32d0)
  const AdvertisementForPepperID := Uuid(0xa30d_cf15_6fab_4b55, 0x8ebe_b290_fb35_09df)
  const AdvertisementForSimbaID := Uuid(0x356b_a347_299d_48f2, 0xb32e_6bc9_1441_01ec)

  const Pepper := Pet(None, PetInfo("Pepper", "Dog", "Labrador", Female, "Cute and friendly"))
  const Nala := Pet(None, PetInfo("Nala", "Dog", "Shih-tzu", Female, "Cheerful dog"))
  const Simba := Pet(None, PetInfo("Simba", "Dog", "Shih-tzu", Male, "Cheerful"))

  const Alice := PetOwner(None, UserInfo(Some("alice@gmail.com"), Some("password123"), "Alice", "Gold",
                                         Location("Paris", "75000", "Champs-elysee"), PetOwnerRole))
  const Bernard := PetOwner(None, UserInfo(Some("bernard@gmail.com"), Some("password"), "Bernard", "Jean",
                                           Location("Chambesy", "1000", "rue la fontaine"), PetOwnerRole))
  const Bob := Adopter(None, UserInfo(Some("bob@gmail.com"), Some("1234"), "Bob", "Sinclar",
                                      Location("Manhattan", "20900", "5th ave"), AdopterRole))
  const Jane := Adopter(None, UserInfo(Some("jane@gmail.com"), Some("ilovecats"), "Jane", "Plane",
                                       Location("Geneva", "1206", "Rue de la croix d'or"), AdopterRole))

  /** The advertisement `populateApplicationState` builds for a pet and its
      owner, both as the registry returned them: the description is the pet's,
      the location the owner's, the status AVAILABLE. */
  function AdvertisementFor(pet: Pet, petOwner: PetOwner): Advertisement {
    Advertisement(None, AdInfo(pet, petOwner, pet.info.description, petOwner.info.location, Available))
  }

  /** `populateApplicationState`: the seed entities added, in the source's
      order, to whatever the tables hold. The two adoption requests of the seed
      are commented out in the source and are not added. */
  function Populate(t: Tables): Tables {
    var pepper := Pepper.(petID := Some(PepperID));
    var simba := Simba.(petID := Some(SimbaID));
    var alice := Alice.(userID := Some(AliceID));
    var bernard := Bernard.(userID := Some(BernardID));
    var t1 := AddPetWithId(t, PepperID, Pepper);
    var t2 := AddPetWithId(t1, NalaID, Nala);
    var t3 := AddPetWithId(t2, SimbaID, Simba);
    var t4 := AddPetOwnerWithId(t3, AliceID, Alice);
    var t5 := AddPetOwnerWithId(t4, BernardID, Bernard);
    var t6 := AddAdopterWithId(t5, BobID, Bob);
    var t7 := AddAdopterWithId(t6, JaneID, Jane);
    var t8 := AddAdvertisementWithId(t7, AdvertisementForPepperID, AdvertisementFor(pepper, alice));
    AddAdvertisementWithId(t8, AdvertisementForSimbaID, AdvertisementFor(simba, bernard))
  }

  /** The tables right after `init`, written out table by table; that this is
      what `populateApplicationState` builds from empty tables is
      `PopulateEmptyIsSeed`. */
  function Seed(): Tables {
    Tables(SeedAdopters, SeedPetOwners, SeedPets, SeedUsers, SeedAdvertisements, map[])
  }

  /** After `init` the registry holds exactly 3 pets, 2 pet owners, 2 adopters,
      4 users, 2 advertisements and no adoption request, under the fixed
      identifiers of the seed. */
  lemma SeedContents()
    ensures Seed().pets.Keys == {PepperID, NalaID, SimbaID} && |Seed().pets| == 3
    ensures Seed().petOwners.Keys == {AliceID, BernardID} && |Seed().petOwners| == 2
    ensures Seed().adopters.Keys == {BobID, JaneID} && |Seed().adopters| == 2
    ensures Seed().users.Keys == {AliceID, BernardID, BobID, JaneID} && |Seed().users| == 4
    ensures Seed().advertisements.Keys == {AdvertisementForPepperID, AdvertisementForSimbaID}
    ensures |Seed().advertisements| == 2
    ensures Seed().adoptionRequests == map[]
  {
    SeedTableSizes();
  }

  /** `SeedContents` stated on the constant maps `Seed()` is built from; it
      only splits the proof. */
  lemma SeedTableSizes()
    ensures SeedPets.Keys == {PepperID, NalaID, SimbaID} && |SeedPets| == 3
    ensures SeedPetOwners.Keys == {AliceID, BernardID} && |SeedPetOwners| == 2
    ensures SeedAdopters.Keys == {BobID, JaneID} && |SeedAdopters| == 2
    ensures SeedUsers.Keys == {AliceID, BernardID, BobID, JaneID} && |SeedUsers| == 4
    ensures SeedAdvertisements.Keys == {AdvertisementForPepperID, AdvertisementForSimbaID}
    ensures |SeedAdvertisements| == 2
  {
  }

  /** Every seeded advertisement names a pet and a pet owner that are filed in
      the seed under the identifiers they carry. */
  lemma SeedAdvertisementsReferToStoredEntities()
    ensures forall k | k in Seed().advertisements ::
      var info := Seed().advertisements[k].info;
      && info.pet.petID.Some? && Get(Seed().pets, info.pet.petID.value) == Some(info.pet)
      && info.petOwner.userID.Some? && Get(Seed().petOwners, info.petOwner.userID.value) == Some(info.petOwner)
  {
  }

  /** The seed satisfies the registry's invariant. */
  lemma SeedIsConsistent()
    ensures Consistent(Seed())
  {
    SeedTablesConsistent();
  }

  /** `SeedIsConsistent` stated on the constant maps `Seed()` is built from;
      it only splits the proof. */
  lemma SeedTablesConsistent()
    ensures Consistent(Tables(SeedAdopters, SeedPetOwners, SeedPets, SeedUsers, SeedAdvertisements, map[]))
  {
    SeedTableSizes();
  }

  const SeedAdopters := map[BobID := Bob.(userID := Some(BobID)), JaneID := Jane.(userID := Some(JaneID))]
  const SeedPetOwners := map[AliceID := Alice.(userID := Some(AliceID)), BernardID := Bernard.(userID := Some(BernardID))]
  const SeedPets := map[PepperID := Pepper.(petID := Some(PepperID)), NalaID := Nala.(petID := Some(NalaID)),
                        SimbaID := Simba.(petID := Some(SimbaID))]
  const SeedUsers := map[AliceID := OwnerUser(SeedPetOwners[AliceID]), BernardID := OwnerUser(SeedPetOwners[BernardID]),
                         BobID := AdopterUser(SeedAdopters[BobID]), JaneID := AdopterUser(SeedAdopters[JaneID])]
  const SeedAdvertisements :=
    map[AdvertisementForPepperID := AdvertisementFor(SeedPets[PepperID], SeedPetOwners[AliceID]),
        AdvertisementForSimbaID := AdvertisementFor(SeedPets[SimbaID], SeedPetOwners[BernardID])]

  /** `populateApplicationState` run on the fresh tables of `init` builds the seed. */
  lemma PopulateEmptyIsSeed()
    ensures Populate(Empty) == Seed()
  {
  }
}
