/** The user and doctor-profile documents (server/src/models/User.js and
    server/src/models/DoctorProfile.js). */
module UserModel {
  import opened Common

  /** The `role` enum: "user", "doctor", "admin". */
  datatype Role = UserRole | DoctorRole | AdminRole

  function RoleName(r: Role): string
  {
    match r
    case UserRole => "user"
    case DoctorRole => "doctor"
    case AdminRole => "admin"
  }

  /** Reads a role name; anything outside the enum is rejected. */
  function ParseRole(s: string): (r: Option<Role>)
    ensures r.Some? ==> RoleName(r.value) == s
  {
    if s == "user" then Some(UserRole)
    else if s == "doctor" then Some(DoctorRole)
    else if s == "admin" then Some(AdminRole)
    else None
  }

  lemma ParseRoleName(r: Role)
    ensures ParseRole(RoleName(r)) == Some(r)
  {
  }

  /** The payment-method enum shared by users and orders: UPI, Card, Cash. */
  datatype PaymentMethod = UPI | Card | Cash

  datatype Theme = Light | Dark

  type AddressId = string

  /** An address sub-document. The schema gives `addressLabel` (the `label` field) "Home", `line2` "" and
      the coordinates 12.9716, 77.5946 when they are not supplied, so a stored
      address always has coordinates. */
  datatype Address = Address(
    id: AddressId,
    addressLabel: string,
    line1: string,
    line2: string,
    city: string,
    state: string,
    pincode: string,
    lat: real,
    lng: real)

  const DefaultLat: real := 12.9716
  const DefaultLng: real := 77.5946

  /** A user document; `email` is stored lower-cased and is unique. */
  datatype User = User(
    id: UserId,
    role: Role,
    name: string,
    username: string,
    email: string,
    passwordHash: string,
    phone: string,
    dob: Option<Millis>,
    addresses: seq<Address>,
    defaultPaymentMethod: PaymentMethod,
    theme: Theme)

  /** A doctor profile; at most one exists per user, so the model keys
      profiles by their user. */
  datatype DoctorProfile = DoctorProfile(
    user: UserId,
    qualification: string,
    specialization: string,
    experienceYears: real,
    consultationFee: real,
    bio: string,
    rating: real,
    approved: bool)

  /** A profile with the schema's defaults: no qualification or
      specialization, fee 300, rating 4.6, not approved. */
  function NewProfile(user: UserId, specialization: string): (p: DoctorProfile)
    ensures p.user == user && p.specialization == specialization
    ensures !p.approved && p.consultationFee == 300.0 && p.rating == 4.6
  {
    DoctorProfile(user, "", specialization, 0.0, 300.0, "", 4.6, false)
  }

  /** The users collection, keyed by id; ids come from a counter. */
  class UserStore {
    var users: map<UserId, User>
    var nextId: UserId

    ghost predicate Valid()
      reads this
    {
      forall id :: id in users ==> users[id].id == id && id < nextId
    }

    constructor ()
      ensures Valid() && users == map[] && nextId == 0
    {
      users := map[];
      nextId := 0;
    }
  }

  /** The doctor profiles, keyed by their user (the unique index on
      `user`). */
  class ProfileStore {
    var profiles: map<UserId, DoctorProfile>

    ghost predicate Valid()
      reads this
    {
      forall u :: u in profiles ==> profiles[u].user == u
    }

    constructor ()
      ensures Valid() && profiles == map[]
    {
      profiles := map[];
    }
  }
}
