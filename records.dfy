/**
 * The rows of the relational store as the handlers see them: users and the
 * farmer aggregate (documents, bank details, fields). Tables are modelled as
 * in-memory sequences.
 */
module Records {
  import opened Wrappers

  datatype Role = ADMIN | STAFF

  /** The enum member's name, which is what travels in the session and the headers. */
  function RoleName(r: Role): string
  {
    match r
    case ADMIN => "ADMIN"
    case STAFF => "STAFF"
  }

  /** A `User` row; `password` holds the SHA-256 hex digest, never the plain text. */
  datatype User = User(id: int, email: string, password: string, name: string,
                       role: Role, isActive: bool, createdAt: int)

  /** The location of a field as the client's geolocation reports it. */
  datatype Location = Location(lat: real, lng: real, accuracy: real,
                               altitude: Option<real>, altitudeAccuracy: Option<real>,
                               timestamp: real)

  /** Stored file names (not paths) of the three per-farmer documents. */
  datatype Documents = Documents(profilePicUrl: string, aadharDocUrl: string, bankDocUrl: string)

  datatype BankDetails = BankDetails(ifscCode: string, accountNumber: string, branchName: string,
                                     address: string, bankName: string, bankCode: string)

  datatype Field = Field(areaHa: real, yieldEstimate: real, location: Location, landDocumentUrl: string)

  datatype Farmer = Farmer(
    id: nat, surveyNumber: string, name: string, relationship: string, gender: string,
    community: string, aadharNumber: string, contactNumber: string,
    state: string, district: string, mandal: string, village: string, panchayath: string,
    dateOfBirth: string, age: int,
    documents: Option<Documents>, bankDetails: Option<BankDetails>, fields: seq<Field>,
    createdById: int, updatedById: int, createdAt: int, updatedAt: int)

  /** `findUnique({ where: { id } })`. */
  function FindUserById(users: seq<User>, id: int): (r: Option<User>)
    ensures r.Some? ==> r.value in users && r.value.id == id
    ensures r.None? ==> forall u :: u in users ==> u.id != id
  {
    if users == [] then None
    else if users[0].id == id then Some(users[0])
    else FindUserById(users[1..], id)
  }

  /** `findUnique({ where: { email } })`. */
  function FindUserByEmail(users: seq<User>, email: string): (r: Option<User>)
    ensures r.Some? ==> r.value in users && r.value.email == email
    ensures r.None? ==> forall u :: u in users ==> u.email != email
  {
    if users == [] then None
    else if users[0].email == email then Some(users[0])
    else FindUserByEmail(users[1..], email)
  }

  function SurveyNumbers(farmers: seq<Farmer>): set<string>
  {
    set f | f in farmers :: f.surveyNumber
  }

  /** The store's unique constraint on `surveyNumber`. */
  predicate UniqueSurveyNumbers(farmers: seq<Farmer>)
  {
    forall i, j :: 0 <= i < j < |farmers| ==> farmers[i].surveyNumber != farmers[j].surveyNumber
  }
}
