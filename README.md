# FurryBuddy application state, modelled in Dafny

FurryBuddy is a pet-adoption web service. Its domain layer keeps every entity
in memory, in one application-scoped `ApplicationState` object. That object
holds one `TreeMap` keyed by UUID per kind of entity. The repository carries
two drafts of it, and this project models both.

- **The newer draft** (package `ch.unil.furrybuddy.domain`) keeps six tables:
  adopters, pet owners, pets, users, advertisements and adoption requests.
  Each kind of entity has `add` (with and without a key), `get`, `getAll`,
  `set` (an in-place `replaceWith`) and `remove`. A pet owner or adopter is
  filed twice, once in its own table and once in `users`. `init` seeds
  three pets, two pet owners, two adopters and two advertisements.
- **The older draft** (package `furrybuddy.domain`) keeps four tables: adopters,
  pet owners, pets and users. Registering a pet owner or an adopter runs
  guards on the e-mail address and the password. Its `set` methods only test
  membership. Its seeding throws at its first statement.

Layout:

- `entities.dfy` holds the entity records as values. A missing identifier is
  `None`. Java's `String.isBlank` is modelled with the `Character.isWhitespace`
  code points.
- `table.dfy` holds one `TreeMap` as a Dafny map, with `get`, `put` and
  `remove`.
- `registry.dfy` holds the newer draft's tables as a value, with one function
  per state-changing operation, round-trip lemmas and the invariant
  `Consistent`.
- `registry_trace.dfy` holds arbitrary sequences of operations, with calls of
  `init` anywhere among them. It proves that every call keeps the invariant,
  for entities held as values (see "Left out" for what this needs in Java).
  Between two calls of `init`, `users` only grows and no removal cascades.
  A call of `init` forgets every user, advertisement and request outside the
  seed.
- `registry_seed.dfy` holds the seed data of `populateApplicationState` and
  what it contains.
- `registry_state.dfy` holds the newer draft's `ApplicationState` class. Its
  maps are fields that the methods update. Each method's new state is the
  matching function of `registry.dfy` applied to the old state.
- `legacy_registry.dfy` and `legacy_state.dfy` do the same for the older draft.

`UUID.randomUUID()` becomes a parameter `randomID` of the one-argument `add`
methods. A Java exception becomes an `Err` result (`Exception` in
`legacy_registry.dfy`), or a returned `Exception` where the call always
throws (the older draft's `init`). A `null` return becomes `None`.

## Model

| member | source | states |
|---|---|---|
| Table.Get | src/main/java/ch/unil/furrybuddy/domain/ApplicationState.java:50-52 | `TreeMap.get` yields an entry exactly when the key is present, and that entry is the stored one |
| Table.Put | src/main/java/ch/unil/furrybuddy/domain/ApplicationState.java:43-47 | after `put` the key finds the new entry, every other key finds what it found before, and the key set gains exactly that key |
| Table.Delete | src/main/java/ch/unil/furrybuddy/domain/ApplicationState.java:69-76 | after `remove` the key finds nothing, every other key is unaffected, the key set loses exactly that key, and removing an absent key changes nothing |
| Table.DeleteUndoesPut | src/main/java/ch/unil/furrybuddy/domain/ApplicationState.java:69-76 | removing a key that was just put under a fresh key gives back the original table |
| Table.PutOverwrites | src/main/java/ch/unil/furrybuddy/domain/ApplicationState.java:43-47 | a second `put` under the same key fully overwrites the first |
| Registry.AddPetWithId | src/main/java/ch/unil/furrybuddy/domain/ApplicationState.java:43-47 | `addPet(petID, pet)` stamps the pet with `petID` and files it under that key, overwriting any earlier pet; other pets and all other tables are untouched |
| Registry.SetPet | src/main/java/ch/unil/furrybuddy/domain/ApplicationState.java:59-66 | `setPet`: an absent key changes nothing; otherwise the stored pet keeps its identifier and takes the payload's attributes, the key set is unchanged, and nothing else changes |
| Registry.RemovePet | src/main/java/ch/unil/furrybuddy/domain/ApplicationState.java:69-76 | `removePet`: the key no longer finds a pet, other keys are unaffected, and an absent key changes nothing |
| Registry.AddPetOwnerWithId | src/main/java/ch/unil/furrybuddy/domain/ApplicationState.java:87-103 | `addPetOwner(userID, _)` files the stamped owner both in `petOwners` and in `users`, with no validation (the guards are commented out); no other table changes |
| Registry.SetPetOwner | src/main/java/ch/unil/furrybuddy/domain/ApplicationState.java:115-122 | `setPetOwner` replaces the attributes of the stored owner in `petOwners` only, keeps its identifier and the key set, and does nothing for an absent key |
| Registry.RemovePetOwner | src/main/java/ch/unil/furrybuddy/domain/ApplicationState.java:125-132 | `removePetOwner` removes the key from `petOwners` only; `users` and `advertisements` stay as they were |
| Registry.AddAdopterWithId | src/main/java/ch/unil/furrybuddy/domain/ApplicationState.java:143-159 | `addAdopter(userID, _)` files the stamped adopter in `adopters` and in `users`, with no validation; no other table changes |
| Registry.SetAdopter | src/main/java/ch/unil/furrybuddy/domain/ApplicationState.java:171-178 | `setAdopter` replaces the stored adopter's attributes, keeps its identifier and the keys, and does nothing for an absent key |
| Registry.RemoveAdopter | src/main/java/ch/unil/furrybuddy/domain/ApplicationState.java:181-188 | `removeAdopter` removes the key from `adopters` only; `users` and `adoptionRequests` are unchanged |
| Registry.AddAdvertisementWithId | src/main/java/ch/unil/furrybuddy/domain/ApplicationState.java:199-204 | `addAdvertisement(id, _)` files the advertisement unchanged (it is not stamped) under the key; nothing else changes |
| Registry.SetAdvertisement | src/main/java/ch/unil/furrybuddy/domain/ApplicationState.java:216-223 | `setAdvertisement` replaces the stored advertisement's attributes and keeps the keys; an absent key changes nothing |
| Registry.RemoveAdvertisement | src/main/java/ch/unil/furrybuddy/domain/ApplicationState.java:226-233 | `removeAdvertisement` removes the key; the adoption requests are untouched |
| Registry.AddAdoptionRequestWithId | src/main/java/ch/unil/furrybuddy/domain/ApplicationState.java:244-247 | `addAdoptionRequest(id, _)` files the request unchanged under the key; nothing else changes |
| Registry.SetAdoptionRequest | src/main/java/ch/unil/furrybuddy/domain/ApplicationState.java:259-266 | `setAdoptionRequest` replaces the stored request's attributes and keeps the keys; an absent key changes nothing |
| Registry.RemoveAdoptionRequest | src/main/java/ch/unil/furrybuddy/domain/ApplicationState.java:269-276 | `removeAdoptionRequest` removes the key from the requests only |
| Registry.AddThenRemovePetRestores | src/main/java/ch/unil/furrybuddy/domain/ApplicationState.java:43-76 | adding a pet under a fresh key and then removing it restores every table |
| Registry.AddThenRemovePetOwnerKeepsUser | src/main/java/ch/unil/furrybuddy/domain/ApplicationState.java:87-132 | adding a pet owner and then removing it restores `petOwners`, but the owner remains in `users` |
| Registry.AddThenRemoveAdopterKeepsUser | src/main/java/ch/unil/furrybuddy/domain/ApplicationState.java:143-188 | adding an adopter and then removing it restores `adopters`, but the adopter remains in `users` |
| Registry.SetPetAfterAddPet | src/main/java/ch/unil/furrybuddy/domain/ApplicationState.java:43-66 | `setPet` right after `addPet` under the same key equals adding the update directly |
| Registry.AddThenRemoveAdvertisementRestores | src/main/java/ch/unil/furrybuddy/domain/ApplicationState.java:199-233 | adding an advertisement under a fresh key and then removing it restores every table |
| Registry.AddThenRemoveAdoptionRequestRestores | src/main/java/ch/unil/furrybuddy/domain/ApplicationState.java:244-276 | adding an adoption request under a fresh key and then removing it restores every table |
| Registry.RemovePetOwnerLeavesItsAdvertisements | src/main/java/ch/unil/furrybuddy/domain/ApplicationState.java:125-132 | after `removePetOwner`, an advertisement naming that owner is still listed, although the owner is gone from `petOwners` |
| Registry.EmptyIsConsistent | src/main/java/ch/unil/furrybuddy/domain/ApplicationState.java:22-32 | the six fresh tables satisfy the invariant (pets, owners and adopters filed under their own ids; owner and adopter keys are user keys) |
| RegistryTrace.StepKeepsConsistent | src/main/java/ch/unil/furrybuddy/domain/ApplicationState.java:22-276 | every state-changing call keeps the invariant, including `init` (the seed satisfies it) |
| RegistryTrace.ApplyKeepsConsistent | src/main/java/ch/unil/furrybuddy/domain/ApplicationState.java:36-276 | every entity operation (add, set, remove of any entity) keeps the invariant |
| RegistryTrace.AddPetWithIdKeepsConsistent | src/main/java/ch/unil/furrybuddy/domain/ApplicationState.java:43-47 | `addPet` keeps the invariant |
| RegistryTrace.SetPetKeepsConsistent | src/main/java/ch/unil/furrybuddy/domain/ApplicationState.java:59-66 | `setPet` keeps the invariant, because `replaceWith` keeps the identifier |
| RegistryTrace.AddPetOwnerWithIdKeepsConsistent | src/main/java/ch/unil/furrybuddy/domain/ApplicationState.java:87-103 | `addPetOwner` keeps the invariant |
| RegistryTrace.SetPetOwnerKeepsConsistent | src/main/java/ch/unil/furrybuddy/domain/ApplicationState.java:115-122 | `setPetOwner` keeps the invariant |
| RegistryTrace.AddAdopterWithIdKeepsConsistent | src/main/java/ch/unil/furrybuddy/domain/ApplicationState.java:143-159 | `addAdopter` keeps the invariant |
| RegistryTrace.SetAdopterKeepsConsistent | src/main/java/ch/unil/furrybuddy/domain/ApplicationState.java:171-178 | `setAdopter` keeps the invariant |
| RegistryTrace.RunKeepsConsistent | src/main/java/ch/unil/furrybuddy/domain/ApplicationState.java:22-276 | any sequence of calls, `init` included, keeps the invariant |
| RegistryTrace.ApplyKeepsUsers | src/main/java/ch/unil/furrybuddy/domain/ApplicationState.java:87-188 | no entity operation removes a key from `users` |
| RegistryTrace.UsersOnlyGrow | src/main/java/ch/unil/furrybuddy/domain/ApplicationState.java:87-188 | over any sequence of entity operations without `init`, the keys of `users` only grow: no user is forgotten until `init` runs again |
| RegistryTrace.ApplyKeepsListings | src/main/java/ch/unil/furrybuddy/domain/ApplicationState.java:69-276 | no entity operation except `removeAdvertisement` and `removeAdoptionRequest` removes an advertisement key or a request key |
| RegistryTrace.NothingCascades | src/main/java/ch/unil/furrybuddy/domain/ApplicationState.java:69-276 | any sequence of entity operations without `init`, `removeAdvertisement` or `removeAdoptionRequest` keeps every advertisement key and every request key; removing a pet, owner or adopter cascades to nothing |
| RegistryTrace.InitForgetsAllButSeed | src/main/java/ch/unil/furrybuddy/domain/ApplicationState.java:22-32 | `init` on tables in use leaves exactly the four seed users, the two seed advertisements and no request; any other user or advertisement that was filed is gone |
| RegistrySeed.SeedContents | src/main/java/ch/unil/furrybuddy/domain/ApplicationState.java:279-455 | after `init` the tables hold exactly the three pets, two owners, two adopters, four users and two advertisements under the fixed UUIDs, and no requests (those are commented out) |
| RegistrySeed.SeedAdvertisementsReferToStoredEntities | src/main/java/ch/unil/furrybuddy/domain/ApplicationState.java:412-431 | each seeded advertisement's pet and owner are filed under the identifiers they carry |
| RegistrySeed.SeedIsConsistent | src/main/java/ch/unil/furrybuddy/domain/ApplicationState.java:279-455 | the seed satisfies the invariant |
| RegistrySeed.PopulateEmptyIsSeed | src/main/java/ch/unil/furrybuddy/domain/ApplicationState.java:279-431 | `populateApplicationState` run on the six empty tables builds exactly the seed tables |
| RegistryState.ApplicationState.constructor | src/main/java/ch/unil/furrybuddy/domain/ApplicationState.java:12-32 | the container-built object holds the seed, and the invariant holds |
| RegistryState.ApplicationState.Init | src/main/java/ch/unil/furrybuddy/domain/ApplicationState.java:22-32 | `init` replaces whatever the tables held with the seed |
| RegistryState.ApplicationState.PopulateApplicationState | src/main/java/ch/unil/furrybuddy/domain/ApplicationState.java:279-455 | the new state is the seed entities added in source order to the old state, each advertisement built from the pet and owner that `add` returned |
| RegistryState.ApplicationState.AddPet | src/main/java/ch/unil/furrybuddy/domain/ApplicationState.java:36-41 | the pet is filed under its own id when it has one, otherwise under the random id; it is returned stamped; the invariant is kept |
| RegistryState.ApplicationState.AddPetWithId | src/main/java/ch/unil/furrybuddy/domain/ApplicationState.java:43-47 | new state is `Registry.AddPetWithId` of the old state; the stamped pet is returned; the invariant is kept |
| RegistryState.ApplicationState.GetPet | src/main/java/ch/unil/furrybuddy/domain/ApplicationState.java:50-52 | the stored pet, or None exactly when the key is absent; while the invariant holds, the entity found carries the key as its identifier |
| RegistryState.ApplicationState.GetAllPets | src/main/java/ch/unil/furrybuddy/domain/ApplicationState.java:54-56 | returns the pets table |
| RegistryState.ApplicationState.SetPet | src/main/java/ch/unil/furrybuddy/domain/ApplicationState.java:59-66 | returns whether the key was present; new state is `Registry.SetPet` of the old; the invariant is kept |
| RegistryState.ApplicationState.RemovePet | src/main/java/ch/unil/furrybuddy/domain/ApplicationState.java:69-76 | returns whether the key was present; new state is `Registry.RemovePet` of the old |
| RegistryState.ApplicationState.AddPetOwner | src/main/java/ch/unil/furrybuddy/domain/ApplicationState.java:80-85 | files the owner under its own id or the random id, in both `petOwners` and `users`; the invariant is kept |
| RegistryState.ApplicationState.AddPetOwnerWithId | src/main/java/ch/unil/furrybuddy/domain/ApplicationState.java:87-103 | new state is `Registry.AddPetOwnerWithId` of the old; the stamped owner is returned |
| RegistryState.ApplicationState.GetPetOwner | src/main/java/ch/unil/furrybuddy/domain/ApplicationState.java:106-108 | the stored owner, or None exactly when the key is absent; while the invariant holds, the entity found carries the key as its identifier |
| RegistryState.ApplicationState.GetAllPetOwners | src/main/java/ch/unil/furrybuddy/domain/ApplicationState.java:110-112 | returns the pet-owners table |
| RegistryState.ApplicationState.SetPetOwner | src/main/java/ch/unil/furrybuddy/domain/ApplicationState.java:115-122 | returns whether the key was present; new state is `Registry.SetPetOwner` of the old |
| RegistryState.ApplicationState.RemovePetOwner | src/main/java/ch/unil/furrybuddy/domain/ApplicationState.java:125-132 | returns whether the key was present; new state is `Registry.RemovePetOwner` of the old |
| RegistryState.ApplicationState.AddAdopter | src/main/java/ch/unil/furrybuddy/domain/ApplicationState.java:136-141 | files the adopter under its own id or the random id, in both `adopters` and `users` |
| RegistryState.ApplicationState.AddAdopterWithId | src/main/java/ch/unil/furrybuddy/domain/ApplicationState.java:143-159 | new state is `Registry.AddAdopterWithId` of the old; the stamped adopter is returned |
| RegistryState.ApplicationState.GetAdopter | src/main/java/ch/unil/furrybuddy/domain/ApplicationState.java:162-164 | the stored adopter, or None exactly when the key is absent; while the invariant holds, the entity found carries the key as its identifier |
| RegistryState.ApplicationState.GetAllAdopters | src/main/java/ch/unil/furrybuddy/domain/ApplicationState.java:166-168 | returns the adopters table |
| RegistryState.ApplicationState.SetAdopter | src/main/java/ch/unil/furrybuddy/domain/ApplicationState.java:171-178 | returns whether the key was present; new state is `Registry.SetAdopter` of the old |
| RegistryState.ApplicationState.RemoveAdopter | src/main/java/ch/unil/furrybuddy/domain/ApplicationState.java:181-188 | returns whether the key was present; new state is `Registry.RemoveAdopter` of the old |
| RegistryState.ApplicationState.AddAdvertisement | src/main/java/ch/unil/furrybuddy/domain/ApplicationState.java:192-197 | files the advertisement, unchanged, under its own id or the random id |
| RegistryState.ApplicationState.AddAdvertisementWithId | src/main/java/ch/unil/furrybuddy/domain/ApplicationState.java:199-204 | new state is `Registry.AddAdvertisementWithId` of the old; the advertisement is returned unchanged |
| RegistryState.ApplicationState.GetAdvertisement | src/main/java/ch/unil/furrybuddy/domain/ApplicationState.java:207-209 | the stored advertisement, or None exactly when the key is absent |
| RegistryState.ApplicationState.GetAllAds | src/main/java/ch/unil/furrybuddy/domain/ApplicationState.java:211-213 | returns the advertisements table |
| RegistryState.ApplicationState.SetAdvertisement | src/main/java/ch/unil/furrybuddy/domain/ApplicationState.java:216-223 | returns whether the key was present; new state is `Registry.SetAdvertisement` of the old |
| RegistryState.ApplicationState.RemoveAdvertisement | src/main/java/ch/unil/furrybuddy/domain/ApplicationState.java:226-233 | returns whether the key was present; new state is `Registry.RemoveAdvertisement` of the old |
| RegistryState.ApplicationState.AddAdoptionRequest | src/main/java/ch/unil/furrybuddy/domain/ApplicationState.java:237-242 | files the request, unchanged, under its own id or the random id |
| RegistryState.ApplicationState.AddAdoptionRequestWithId | src/main/java/ch/unil/furrybuddy/domain/ApplicationState.java:244-247 | new state is `Registry.AddAdoptionRequestWithId` of the old; the request is returned unchanged |
| RegistryState.ApplicationState.GetAdoptionRequest | src/main/java/ch/unil/furrybuddy/domain/ApplicationState.java:250-252 | the stored request, or None exactly when the key is absent |
| RegistryState.ApplicationState.GetAllAdoptionRequests | src/main/java/ch/unil/furrybuddy/domain/ApplicationState.java:254-256 | returns the requests table |
| RegistryState.ApplicationState.SetAdoptionRequest | src/main/java/ch/unil/furrybuddy/domain/ApplicationState.java:259-266 | returns whether the key was present; new state is `Registry.SetAdoptionRequest` of the old |
| RegistryState.ApplicationState.RemoveAdoptionRequest | src/main/java/ch/unil/furrybuddy/domain/ApplicationState.java:269-276 | returns whether the key was present; new state is `Registry.RemoveAdoptionRequest` of the old |
| LegacyRegistry.ContainsEmailKey | src/main/java/furrybuddy/domain/ApplicationState.java:87-89 | `users.containsKey(email)` on a UUID-keyed `TreeMap` answers false on an empty map and fails with ClassCastException on any other map; it never answers true |
| LegacyRegistry.CheckRegistration | src/main/java/furrybuddy/domain/ApplicationState.java:82-92 | the guards in source order: a null or blank e-mail gives the "email is null or empty" exception; otherwise a non-empty `users` throws ClassCastException; otherwise a null or blank password gives the password exception; otherwise the user passes |
| LegacyRegistry.DuplicateEmailNeverReported | src/main/java/furrybuddy/domain/ApplicationState.java:87-89 | the "email already exists" exception can never be thrown |
| LegacyRegistry.AddPetWithId | src/main/java/furrybuddy/domain/ApplicationState.java:38-42 | `addPet(petID, pet)` stamps and files the pet; other pets and tables are untouched |
| LegacyRegistry.RemovePet | src/main/java/furrybuddy/domain/ApplicationState.java:64-71 | `removePet` removes the key; an absent key changes nothing |
| LegacyRegistry.AddPetOwnerWithId | src/main/java/furrybuddy/domain/ApplicationState.java:82-98 | `addPetOwner(userID, _)` fails exactly when a guard fails, with that guard's exception; otherwise the stamped owner is filed in `petOwners` and `users` and nothing else changes |
| LegacyRegistry.RemovePetOwner | src/main/java/furrybuddy/domain/ApplicationState.java:120-127 | `removePetOwner` removes the key from `petOwners` only; `users` is unchanged |
| LegacyRegistry.AddAdopterWithId | src/main/java/furrybuddy/domain/ApplicationState.java:138-154 | `addAdopter(userID, _)` fails exactly when a guard (with the adopter messages) fails; otherwise the stamped adopter is filed in `adopters` and `users` |
| LegacyRegistry.RemoveAdopter | src/main/java/furrybuddy/domain/ApplicationState.java:176-183 | `removeAdopter` removes the key from `adopters` only |
| LegacyRegistry.RegistrationAfterOwnerThrows | src/main/java/furrybuddy/domain/ApplicationState.java:82-154 | once one pet owner is registered, every later registration of an owner or an adopter that has an e-mail throws ClassCastException |
| LegacyRegistry.RegistrationNeedsNoUsers | src/main/java/furrybuddy/domain/ApplicationState.java:82-154 | a registration succeeds only while `users` is empty, and then leaves exactly the new key in `users` |
| LegacyRegistry.EmptyIsConsistent | src/main/java/furrybuddy/domain/ApplicationState.java:19-27 | the four fresh tables satisfy the older draft's invariant (entities filed under their own ids, owner and adopter keys are user keys, at most one user) |
| LegacyRegistry.AddPetWithIdKeepsConsistent | src/main/java/furrybuddy/domain/ApplicationState.java:38-42 | `addPet` keeps the invariant |
| LegacyRegistry.RemovePetKeepsConsistent | src/main/java/furrybuddy/domain/ApplicationState.java:64-71 | `removePet` keeps the invariant |
| LegacyRegistry.AddPetOwnerWithIdKeepsConsistent | src/main/java/furrybuddy/domain/ApplicationState.java:82-98 | a successful `addPetOwner` keeps the invariant, including "at most one user" |
| LegacyRegistry.RemovePetOwnerKeepsConsistent | src/main/java/furrybuddy/domain/ApplicationState.java:120-127 | `removePetOwner` keeps the invariant |
| LegacyRegistry.AddAdopterWithIdKeepsConsistent | src/main/java/furrybuddy/domain/ApplicationState.java:138-154 | a successful `addAdopter` keeps the invariant |
| LegacyRegistry.RemoveAdopterKeepsConsistent | src/main/java/furrybuddy/domain/ApplicationState.java:176-183 | `removeAdopter` keeps the invariant |
| LegacyRegistry.AddThenRemovePetRestores | src/main/java/furrybuddy/domain/ApplicationState.java:38-71 | adding a pet under a fresh key and then removing it restores every table |
| LegacyState.ApplicationState.constructor | src/main/java/furrybuddy/domain/ApplicationState.java:19-27 | the object starts with four empty tables, which satisfy the invariant |
| LegacyState.ApplicationState.Init | src/main/java/furrybuddy/domain/ApplicationState.java:19-27 | `init` leaves four empty tables and throws IllegalArgumentException "Invalid UUID string: 2b7da5cb" (the first statement of `populateApplicationState`, line 189) |
| LegacyState.ApplicationState.AddPet | src/main/java/furrybuddy/domain/ApplicationState.java:31-36 | files the pet under its own id or the random id and returns it stamped; the invariant is kept |
| LegacyState.ApplicationState.AddPetWithId | src/main/java/furrybuddy/domain/ApplicationState.java:38-42 | new state is `LegacyRegistry.AddPetWithId` of the old |
| LegacyState.ApplicationState.GetPet | src/main/java/furrybuddy/domain/ApplicationState.java:45-47 | the stored pet, or None exactly when the key is absent; while the invariant holds, the entity found carries the key as its identifier |
| LegacyState.ApplicationState.GetAllPets | src/main/java/furrybuddy/domain/ApplicationState.java:49-51 | returns the pets table |
| LegacyState.ApplicationState.SetPet | src/main/java/furrybuddy/domain/ApplicationState.java:54-61 | returns whether the key is present and changes nothing (`replaceWith` is commented out) |
| LegacyState.ApplicationState.RemovePet | src/main/java/furrybuddy/domain/ApplicationState.java:64-71 | returns whether the key was present; new state is `LegacyRegistry.RemovePet` of the old |
| LegacyState.ApplicationState.AddPetOwner | src/main/java/furrybuddy/domain/ApplicationState.java:75-80 | registers under the owner's own id or the random id, failing exactly as the two-argument form |
| LegacyState.ApplicationState.AddPetOwnerWithId | src/main/java/furrybuddy/domain/ApplicationState.java:82-98 | on a failing guard, the guard's exception and no change; otherwise the new state is `LegacyRegistry.AddPetOwnerWithId` of the old and the stamped owner is returned |
| LegacyState.ApplicationState.GetPetOwner | src/main/java/furrybuddy/domain/ApplicationState.java:101-103 | the stored owner, or None exactly when the key is absent; while the invariant holds, the entity found carries the key as its identifier |
| LegacyState.ApplicationState.GetAllPetOwners | src/main/java/furrybuddy/domain/ApplicationState.java:105-107 | returns the pet-owners table |
| LegacyState.ApplicationState.SetPetOwner | src/main/java/furrybuddy/domain/ApplicationState.java:110-117 | looks up the payload's own id, not the path id: a null one throws NullPointerException, otherwise returns whether it is a key; changes nothing |
| LegacyState.ApplicationState.RemovePetOwner | src/main/java/furrybuddy/domain/ApplicationState.java:120-127 | returns whether the key was present; new state is `LegacyRegistry.RemovePetOwner` of the old |
| LegacyState.ApplicationState.AddAdopter | src/main/java/furrybuddy/domain/ApplicationState.java:131-136 | registers under the adopter's own id or the random id, failing exactly as the two-argument form |
| LegacyState.ApplicationState.AddAdopterWithId | src/main/java/furrybuddy/domain/ApplicationState.java:138-154 | on a failing guard, its exception and no change; otherwise the new state is `LegacyRegistry.AddAdopterWithId` of the old |
| LegacyState.ApplicationState.GetAdopter | src/main/java/furrybuddy/domain/ApplicationState.java:157-159 | the stored adopter, or None exactly when the key is absent; while the invariant holds, the entity found carries the key as its identifier |
| LegacyState.ApplicationState.GetAllAdopters | src/main/java/furrybuddy/domain/ApplicationState.java:161-163 | returns the adopters table |
| LegacyState.ApplicationState.SetAdopter | src/main/java/furrybuddy/domain/ApplicationState.java:166-173 | looks up the payload's own id: null throws NullPointerException, otherwise returns whether it is a key; changes nothing |
| LegacyState.ApplicationState.RemoveAdopter | src/main/java/furrybuddy/domain/ApplicationState.java:176-183 | returns whether the key was present; new state is `LegacyRegistry.RemoveAdopter` of the old |

## Left out

- Object identity and aliasing are not modelled, because entities are values here. In Java:
  - `users` and the role table share one object, so a `setPetOwner` is also visible through `users`. Here the `users` entry keeps the attributes it had when it was added.
  - `getAll` methods return the live map, which a caller can mutate.
  - An advertisement holds references to its pet and owner, not copies.
  - The invariant `Consistent` says each pet, owner and adopter is filed under its own identifier. It and its preservation lemmas (`RegistryTrace.*KeepsConsistent`, `RunKeepsConsistent`, `LegacyRegistry.*KeepsConsistent`) hold for entity values. In Java the two-argument `add` stamps the argument object and files that same object. So the invariant also needs two things: each entity object is filed under at most one key, and no caller changes the identifier of a stored entity. For example, `addPet(k1, p); addPet(k2, p)` with one object `p` leaves the pet under `k1` carrying `k2`.
- Null entity arguments are not modelled: every entity argument is a value. In Java:
  - the one-argument `addPet`, `addPetOwner`, `addAdopter`, `addAdvertisement` and `addAdoptionRequest`, and the two-argument `addPet`, `addPetOwner` and `addAdopter`, throw NullPointerException on a null entity;
  - in the newer draft, every `set` on a present key passes a null payload to `replaceWith`;
  - in the older draft, `setPet` ignores its payload, so a null payload gets the same membership answer that `LegacyState.ApplicationState.SetPet` gives. `setPetOwner` and `setAdopter` call `getUserID()` on the payload first, so a null payload throws NullPointerException whatever the path identifier;
  - the two-argument `addAdvertisement` and `addAdoptionRequest` file a null value, which `TreeMap` accepts. After that, `getAdvertisement` and `getAdoptionRequest` return null for a key that is present. `setAdvertisement`, `removeAdvertisement`, `setAdoptionRequest` and `removeAdoptionRequest` return false for it. None of these operations removes the key. Only `init`, or a `put` of a non-null value under the key followed by a `remove`, takes it away. The contracts of `RegistryState.ApplicationState.GetAdvertisement`, `SetAdvertisement`, `RemoveAdvertisement`, `GetAdoptionRequest`, `SetAdoptionRequest` and `RemoveAdoptionRequest` (result exactly when the key is present) hold only for the non-null entries the model can hold.
- Sequences of operations that include `init` are covered by `RunKeepsConsistent` only. `UsersOnlyGrow` and `NothingCascades` exclude `init`, because `init` replaces every table with the seed (`InitForgetsAllButSeed`).
- Null keys are not modelled: path identifiers are always UUIDs. A null key passed to `get`, `put` or `remove` throws NullPointerException in Java. The one null lookup that is modelled is the older draft's `set` on a payload without an identifier.
- The entity classes (`Pet`, `PetOwner`, `Adopter`, `User`, `Advertisement`, `AdoptionRequest`, `Location`) are not part of this model.
  - Their attributes are reduced to those the registry or its seed relies on. The pets' age, price, colour, health flags and similar fields are left out.
  - `replaceWith` is assumed to copy every attribute except the identifier.
  - The `Advertisement` constructor is assumed to leave the identifier null.
- The REST resources and `GlobalExceptionMapper` are not modelled, nor are the operations `ServiceResource` calls that neither draft defines.
- In the older draft, `populateApplicationState` is modelled only up to the statement that throws (line 189). The rest can never run. The exception also means the container never finishes building the bean; that is not modelled.
- The CDI lifecycle (`@ApplicationScoped`, `@PostConstruct`) and concurrent access are not modelled.
- `UUID.randomUUID()` is a parameter, so nothing is assumed about collisions. An `add` under a key already in use overwrites the entry, as `TreeMap.put` does.
- `UUID.fromString` is not modelled: the newer draft's seed UUIDs are written as their 64-bit halves.
- The order of `TreeMap` iteration is not modelled: `getAll` returns a Dafny map.
