/** Values shared by both drafts of the FurryBuddy registry: identifiers, the
    domain records the registry stores, and the `String.isBlank` test that the
    older draft's registration guard applies. */
module Entities {

  /** A Java reference that may be null. */
  datatype Option<+T> = None | Some(value: T)

  /** An unsigned 64-bit word; a `java.util.UUID` is two of them. */
  newtype Word64 = x: int | 0 <= x < 0x1_0000_0000_0000_0000

  /** `java.util.UUID`: 128 bits, held as the most and least significant halves
      (the first 16 and the last 16 hexadecimal digits of its text form). */
  datatype Uuid = Uuid(mostSigBits: Word64, leastSigBits: Word64)

  /** `Character.isWhitespace` on one code point: the Unicode space, line and
      paragraph separators other than the three non-breaking spaces (U+00A0,
      U+2007, U+202F), plus the controls U+0009..U+000D and U+001C..U+001F. */
  predicate IsWhitespace(c: char) {
    var n := c as int;
    || 0x09 <= n <= 0x0D
    || 0x1C <= n <= 0x20
    || n == 0x1680
    || (0x2000 <= n <= 0x200A && n != 0x2007)
    || n == 0x2028 || n == 0x2029 || n == 0x205F || n == 0x3000
  }

  /** `String.isBlank`: empty, or made of whitespace code points only. */
  predicate IsBlank(s: string) {
    forall i :: 0 <= i < |s| ==> IsWhitespace(s[i])
  }

  /** A Java string that is null or blank, the condition both registration
      guards reject. */
  predicate IsNullOrBlank(s: Option<string>) {
    s.None? || IsBlank(s.value)
  }

  datatype Gender = Male | Female

  datatype Location = Location(city: string, postalCode: string, street: string)

  datatype Role = PetOwnerRole | AdopterRole

  /** The attributes of a pet that the registry and its seed data care about. */
  datatype PetInfo = PetInfo(name: string, species: string, breed: string, gender: Gender, description: string)

  /** A pet: its identifier (null until the registry stamps one) and its attributes. */
  datatype Pet = Pet(petID: Option<Uuid>, info: PetInfo) {
    /** `replaceWith`: every attribute of `payload`, the identifier of `this`. */
    function ReplaceWith(payload: Pet): Pet {
      this.(info := payload.info)
    }
  }

  /** The attributes every user carries, whatever its role. */
  datatype UserInfo = UserInfo(
    email: Option<string>,
    password: Option<string>,
    firstName: string,
    lastName: string,
    location: Location,
    role: Role)

  datatype PetOwner = PetOwner(userID: Option<Uuid>, info: UserInfo) {
    function ReplaceWith(payload: PetOwner): PetOwner {
      this.(info := payload.info)
    }
  }

  datatype Adopter = Adopter(userID: Option<Uuid>, info: UserInfo) {
    function ReplaceWith(payload: Adopter): Adopter {
      this.(info := payload.info)
    }
  }

  /** An entry of the `users` table: a pet owner or an adopter. */
  datatype User = OwnerUser(owner: PetOwner) | AdopterUser(adopter: Adopter)

  datatype AdStatus = Available | Pending | Adopted | Removed

  /** An advertisement's attributes; the pet and the owner are held as the
      records they were when the advertisement was built. */
  datatype AdInfo = AdInfo(pet: Pet, petOwner: PetOwner, description: string, location: Location, status: AdStatus)

  datatype Advertisement = Advertisement(advertisementID: Option<Uuid>, info: AdInfo) {
    function ReplaceWith(payload: Advertisement): Advertisement {
      this.(info := payload.info)
    }
  }

  datatype RequestStatus = RequestPending | RequestAccepted | RequestRejected | RequestCancelled

  datatype RequestInfo = RequestInfo(adopter: Adopter, advertisement: Advertisement, status: RequestStatus)

  datatype AdoptionRequest = AdoptionRequest(requestID: Option<Uuid>, info: RequestInfo) {
    function ReplaceWith(payload: AdoptionRequest): AdoptionRequest {
      this.(info := payload.info)
    }
  }

  /** The key a one-argument `add` files an entity under: the entity's own
      identifier when it has one, otherwise the freshly generated one. */
  function KeyFor(own: Option<Uuid>, generated: Uuid): Uuid {
    if own.Some? then own.value else generated
  }
}
