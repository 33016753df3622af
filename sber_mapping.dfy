/**
 * The mapping of Sber ID's user-info claims onto the host's user object
 * (`mapUserToObject`). The twenty attributes follow section 5.1 of OpenID
 * Connect Core 1.0 for the standard claims; the identity-document claims
 * (passport, inn, snils, ...) are Sber ID's own.
 */
module SberMapping {
  import opened Wrappers
  import opened PhpValue
  import opened Socialite

  /** The attributes `map()` sets on the user, one per entry of the mapping table. */
  datatype Attributes = Attributes(
    id: Value,
    nickname: Value,
    name: Value,
    surname: Value,
    middleName: Value,
    email: Value,
    phone: Value,
    birthdate: Value,
    passport: Value,
    inn: Value,
    snils: Value,
    drivingLicense: Value,
    internationalPassport: Value,
    priorityDoc: Value,
    citizenship: Value,
    placeOfBirth: Value,
    address: Value,
    jobInfo: Value,
    education: Value,
    maritalStatus: Value
  )

  /**
   * The host's user object: the mapped attributes, the raw claims kept
   * beside them, and what `user()` adds after mapping. A fresh user has null
   * token and expiry and no token response.
   */
  datatype User = User(
    attrs: Attributes,
    raw: map<string, Value>,
    token: Value,
    expiresIn: Value,
    accessTokenResponseBody: Option<TokenResponse>
  ) {
    function SetAccessTokenResponseBody(body: TokenResponse): User {
      this.(accessTokenResponseBody := Some(body))
    }

    function SetToken(t: Value): User {
      this.(token := t)
    }

    function SetExpiresIn(e: Value): User {
      this.(expiresIn := e)
    }
  }

  /** The entries of the mapping table, one per attribute it sets. */
  datatype Attribute =
    | Id | Nickname | Name | Surname | MiddleName | Email | Phone | Birthdate
    | Passport | Inn | Snils | DrivingLicense | InternationalPassport | PriorityDoc
    | Citizenship | PlaceOfBirth | Address | JobInfo | Education | MaritalStatus

  /** The property name the host's user object is given for an attribute. */
  function PropertyName(a: Attribute): string {
    match a
    case Id => "id"
    case Nickname => "nickname"
    case Name => "name"
    case Surname => "surname"
    case MiddleName => "middle_name"
    case Email => "email"
    case Phone => "phone"
    case Birthdate => "birthdate"
    case Passport => "passport"
    case Inn => "inn"
    case Snils => "snils"
    case DrivingLicense => "driving_license"
    case InternationalPassport => "international_passport"
    case PriorityDoc => "priority_doc"
    case Citizenship => "citizenship"
    case PlaceOfBirth => "place_of_birth"
    case Address => "address"
    case JobInfo => "job_info"
    case Education => "education"
    case MaritalStatus => "marital_status"
  }

  /**
   * The claim an attribute is read from: five attributes take a claim of
   * another name, every other one the claim named like its property.
   */
  function Claim(a: Attribute): string {
    match a
    case Id => "sub"
    case Nickname => "preferred_username"
    case Name => "given_name"
    case Surname => "family_name"
    case Phone => "phone_number"
    case _ => PropertyName(a)
  }

  /** The value a user's attributes hold for one entry of the table. */
  function Get(attrs: Attributes, a: Attribute): Value {
    match a
    case Id => attrs.id
    case Nickname => attrs.nickname
    case Name => attrs.name
    case Surname => attrs.surname
    case MiddleName => attrs.middleName
    case Email => attrs.email
    case Phone => attrs.phone
    case Birthdate => attrs.birthdate
    case Passport => attrs.passport
    case Inn => attrs.inn
    case Snils => attrs.snils
    case DrivingLicense => attrs.drivingLicense
    case InternationalPassport => attrs.internationalPassport
    case PriorityDoc => attrs.priorityDoc
    case Citizenship => attrs.citizenship
    case PlaceOfBirth => attrs.placeOfBirth
    case Address => attrs.address
    case JobInfo => attrs.jobInfo
    case Education => attrs.education
    case MaritalStatus => attrs.maritalStatus
  }

  /**
   * `mapUserToObject`: a fresh user holding the raw claims unchanged, whose
   * every attribute is the claim `Claim` names for it, or null when that
   * claim is absent.
   */
  function MapUserToObject(raw: map<string, Value>): (u: User)
    ensures u.raw == raw
    ensures u.token == Null && u.expiresIn == Null && u.accessTokenResponseBody == None
    ensures forall a :: Get(u.attrs, a) == Lookup(raw, Claim(a))
  {
    var attrs := Attributes(
      id := Lookup(raw, "sub"),
      nickname := Lookup(raw, "preferred_username"),
      name := Lookup(raw, "given_name"),
      surname := Lookup(raw, "family_name"),
      middleName := Lookup(raw, "middle_name"),
      email := Lookup(raw, "email"),
      phone := Lookup(raw, "phone_number"),
      birthdate := Lookup(raw, "birthdate"),
      passport := Lookup(raw, "passport"),
      inn := Lookup(raw, "inn"),
      snils := Lookup(raw, "snils"),
      drivingLicense := Lookup(raw, "driving_license"),
      internationalPassport := Lookup(raw, "international_passport"),
      priorityDoc := Lookup(raw, "priority_doc"),
      citizenship := Lookup(raw, "citizenship"),
      placeOfBirth := Lookup(raw, "place_of_birth"),
      address := Lookup(raw, "address"),
      jobInfo := Lookup(raw, "job_info"),
      education := Lookup(raw, "education"),
      maritalStatus := Lookup(raw, "marital_status")
    );
    User(attrs, raw, Null, Null, None)
  }
}
