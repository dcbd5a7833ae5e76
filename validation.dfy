/**
 * The request schemas of the farmer endpoints: what a create payload, an
 * update payload and an uploaded file must satisfy. Each schema is modelled
 * as the list of issues the schema library reports (path and message, in
 * the order of the schema's keys); a payload is accepted iff that list is
 * empty. Each list is proved equivalent to a plain validity predicate.
 */
module Validation {
  import opened Wrappers
  import opened Text
  import opened Records

  // ---------------------------------------------------------------------
  // The three regular expressions, as anchored sequences of counted classes
  // ---------------------------------------------------------------------

  datatype CharClass = Upper | Digit | UpperOrDigit | Exactly(c: char)

  /** `cls{count}` */
  datatype Atom = Atom(cls: CharClass, count: nat)

  predicate InClass(c: char, cls: CharClass)
  {
    match cls
    case Upper => IsUpper(c)
    case Digit => IsDigit(c)
    case UpperOrDigit => IsUpper(c) || IsDigit(c)
    case Exactly(d) => c == d
  }

  /** `^p$`: the whole of s is matched by the atoms of p in turn. */
  predicate FullMatch(p: seq<Atom>, s: string)
    decreases |p|
  {
    if p == [] then s == []
    else
      p[0].count <= |s|
      && (forall i :: 0 <= i < p[0].count ==> InClass(s[i], p[0].cls))
      && FullMatch(p[1..], s[p[0].count..])
  }

  /** `/^[A-Z]{4}0[A-Z0-9]{6}$/` */
  const IfscPattern: seq<Atom> := [Atom(Upper, 4), Atom(Exactly('0'), 1), Atom(UpperOrDigit, 6)]
  /** `/^\d{12}$/` */
  const AadharPattern: seq<Atom> := [Atom(Digit, 12)]
  /** `/^\d{10}$/` */
  const ContactPattern: seq<Atom> := [Atom(Digit, 10)]

  /** An IFSC code: four capital letters, the digit zero, six capitals or digits. */
  predicate IsIfsc(s: string)
  {
    && |s| == 11
    && (forall i :: 0 <= i < 4 ==> IsUpper(s[i]))
    && s[4] == '0'
    && (forall i :: 5 <= i < 11 ==> IsUpper(s[i]) || IsDigit(s[i]))
  }

  lemma IfscPatternMeaning(s: string)
    ensures FullMatch(IfscPattern, s) <==> IsIfsc(s)
  {
    var p := IfscPattern;
    assert p[1..] == [Atom(Exactly('0'), 1), Atom(UpperOrDigit, 6)];
    assert p[1..][1..] == [Atom(UpperOrDigit, 6)];
    assert p[1..][1..][1..] == [];
    if |s| >= 11 {
      assert s[4..][1..] == s[5..];
      assert s[5..][6..] == s[11..];
      assert forall i :: 5 <= i < 11 ==> s[i] == s[5..][i - 5];
    }
  }

  /** `^\d{n}$` accepts exactly the strings of n digits. */
  lemma DigitsPatternMeaning(n: nat, s: string)
    ensures FullMatch([Atom(Digit, n)], s) <==> |s| == n && AllDigits(s)
  {
    assert [Atom(Digit, n)][1..] == [];
  }

  // ---------------------------------------------------------------------
  // Issues
  // ---------------------------------------------------------------------

  datatype PathSegment = Key(name: string) | Index(i: nat)

  /** One failed check: where in the payload, and the message. */
  datatype Issue = Issue(path: seq<PathSegment>, message: string)

  function Check(ok: bool, path: seq<PathSegment>, message: string): seq<Issue>
  {
    if ok then [] else [Issue(path, message)]
  }

  /** The members of the store's `Relationship` and `Gender` enums. */
  datatype Enums = Enums(relationships: set<string>, genders: set<string>)

  const NonNegativeMessage := "Number must be greater than or equal to 0"
  const EnumMessage := "Invalid enum value"
  const LatMessage := "Latitude must be between -90 and 90"
  const LngMessage := "Longitude must be between -180 and 180"

  // ---------------------------------------------------------------------
  // Create payload
  // ---------------------------------------------------------------------

  datatype BankDetailsInput = BankDetailsInput(ifscCode: string, accountNumber: string, branchName: string,
                                               bankAddress: string, bankName: string, bankCode: string)

  datatype FieldInput = FieldInput(areaHa: real, yieldEstimate: real, location: Location)

  /** The form fields of a create request; `age` is the integer its text parses to. */
  datatype CreateFarmerInput = CreateFarmerInput(
    farmerName: string, relationship: string, gender: string, community: string,
    aadharNumber: string, contactNumber: string,
    state: string, district: string, mandal: string, village: string, panchayath: string,
    dateOfBirth: string, age: int,
    bankDetails: BankDetailsInput, fields: seq<FieldInput>)

  function LocationIssues(loc: Location, at: seq<PathSegment>): seq<Issue>
  {
    Check(-90.0 <= loc.lat, at + [Key("lat")], LatMessage)
    + Check(loc.lat <= 90.0, at + [Key("lat")], LatMessage)
    + Check(-180.0 <= loc.lng, at + [Key("lng")], LngMessage)
    + Check(loc.lng <= 180.0, at + [Key("lng")], LngMessage)
    + Check(0.0 <= loc.accuracy, at + [Key("accuracy")], "Accuracy must be positive")
  }

  function FieldIssues(f: FieldInput, index: nat): seq<Issue>
  {
    var at := [Key("fields"), Index(index)];
    Check(0.0 <= f.areaHa, at + [Key("areaHa")], NonNegativeMessage)
    + Check(0.0 <= f.yieldEstimate, at + [Key("yieldEstimate")], NonNegativeMessage)
    + LocationIssues(f.location, at + [Key("location")])
  }

  /** Issues of fields[0..], numbered from start. */
  function FieldsIssues(fields: seq<FieldInput>, start: nat): seq<Issue>
  {
    if fields == [] then [] else FieldIssues(fields[0], start) + FieldsIssues(fields[1..], start + 1)
  }

  function BankIssues(b: BankDetailsInput): seq<Issue>
  {
    Check(FullMatch(IfscPattern, b.ifscCode), [Key("bankDetails"), Key("ifscCode")], "Invalid IFSC code format")
    + Check(|b.accountNumber| >= 8, [Key("bankDetails"), Key("accountNumber")], "Account number too short")
  }

  /** The issues `CreateFarmerSchema.parse` reports, in the schema's key order. */
  function CreateIssues(p: CreateFarmerInput, enums: Enums): seq<Issue>
  {
    Check(|p.farmerName| >= 1, [Key("farmerName")], "Farmer name is required")
    + Check(p.relationship in enums.relationships, [Key("relationship")], EnumMessage)
    + Check(p.gender in enums.genders, [Key("gender")], EnumMessage)
    + Check(FullMatch(AadharPattern, p.aadharNumber), [Key("aadharNumber")], "Aadhar number must be 12 digits")
    + Check(FullMatch(ContactPattern, p.contactNumber), [Key("contactNumber")], "Contact number must be 10 digits")
    + BankIssues(p.bankDetails)
    + Check(|p.fields| >= 1, [Key("fields")], "At least one field is required")
    + FieldsIssues(p.fields, 0)
  }

  predicate LocationValid(l: Location)
  {
    -90.0 <= l.lat <= 90.0 && -180.0 <= l.lng <= 180.0 && 0.0 <= l.accuracy
  }

  predicate FieldValid(f: FieldInput)
  {
    0.0 <= f.areaHa && 0.0 <= f.yieldEstimate && LocationValid(f.location)
  }

  /** What a create payload must be, stated directly. */
  predicate CreateValid(p: CreateFarmerInput, enums: Enums)
  {
    && p.farmerName != ""
    && p.relationship in enums.relationships
    && p.gender in enums.genders
    && |p.aadharNumber| == 12 && AllDigits(p.aadharNumber)
    && |p.contactNumber| == 10 && AllDigits(p.contactNumber)
    && IsIfsc(p.bankDetails.ifscCode)
    && |p.bankDetails.accountNumber| >= 8
    && |p.fields| >= 1
    && forall i :: 0 <= i < |p.fields| ==> FieldValid(p.fields[i])
  }

  lemma {:induction false} FieldsIssuesEmptyIff(fields: seq<FieldInput>, start: nat)
    ensures FieldsIssues(fields, start) == [] <==> forall i :: 0 <= i < |fields| ==> FieldValid(fields[i])
  {
    if fields != [] {
      FieldsIssuesEmptyIff(fields[1..], start + 1);
      assert forall i :: 1 <= i < |fields| ==> fields[i] == fields[1..][i - 1];
    }
  }

  /** A create payload is accepted iff it meets every constraint of the schema. */
  lemma CreateIssuesEmptyIff(p: CreateFarmerInput, enums: Enums)
    ensures CreateIssues(p, enums) == [] <==> CreateValid(p, enums)
  {
    IfscPatternMeaning(p.bankDetails.ifscCode);
    DigitsPatternMeaning(12, p.aadharNumber);
    DigitsPatternMeaning(10, p.contactNumber);
    FieldsIssuesEmptyIff(p.fields, 0);
  }

  /** A payload without fields is refused, with the issue on the path `fields`. */
  lemma NoFieldsRejected(p: CreateFarmerInput, enums: Enums)
    requires p.fields == []
    ensures Issue([Key("fields")], "At least one field is required") in CreateIssues(p, enums)
  {
  }

  /** A negative area or yield estimate in any field makes the payload invalid. */
  lemma NegativeFieldRejected(p: CreateFarmerInput, enums: Enums, i: nat)
    requires i < |p.fields|
    requires p.fields[i].areaHa < 0.0 || p.fields[i].yieldEstimate < 0.0
    ensures CreateIssues(p, enums) != []
  {
    CreateIssuesEmptyIff(p, enums);
  }

  // ---------------------------------------------------------------------
  // Uploaded files
  // ---------------------------------------------------------------------

  /** The parts of a browser `File` the handlers read. */
  datatype FileMeta = FileMeta(name: string, size: nat, mimeType: string)

  const MaxFileSize: nat := 5 * 1024 * 1024

  function FileIssues(f: FileMeta): seq<Issue>
  {
    Check(f.size <= MaxFileSize, [Key("size")], "File size must be less than 5MB")
    + Check(f.mimeType in ["image/jpeg", "image/png", "application/pdf"], [Key("type")], "File must be JPG, PNG, or PDF")
  }

  predicate FileAccepted(f: FileMeta)
  {
    f.size <= 5242880 && (f.mimeType == "image/jpeg" || f.mimeType == "image/png" || f.mimeType == "application/pdf")
  }

  /** A file passes iff it is at most 5 MiB (inclusive) and a JPEG, PNG or PDF. */
  lemma FileIssuesEmptyIff(f: FileMeta)
    ensures FileIssues(f) == [] <==> FileAccepted(f)
  {
  }

  // ---------------------------------------------------------------------
  // Update payload: every key optional, no IFSC or account-length check
  // ---------------------------------------------------------------------

  datatype UpdateBankDetailsInput = UpdateBankDetailsInput(ifscCode: string, accountNumber: string, branchName: string,
                                                           address: string, bankName: string, bankCode: string)

  datatype UpdateFarmerInput = UpdateFarmerInput(
    farmerName: Option<string>, relationship: Option<string>, gender: Option<string>,
    community: Option<string>, aadharNumber: Option<string>, contactNumber: Option<string>,
    state: Option<string>, district: Option<string>, mandal: Option<string>,
    village: Option<string>, panchayath: Option<string>,
    dateOfBirth: Option<string>, age: Option<int>,
    bankDetails: Option<UpdateBankDetailsInput>)

  const EmptyUpdate := UpdateFarmerInput(None, None, None, None, None, None, None, None, None, None, None, None, None, None)

  /** A present value must pass the check; an absent one is not checked. */
  function CheckPresent<T>(o: Option<T>, ok: T -> bool, path: seq<PathSegment>, message: string): seq<Issue>
  {
    if o.Some? then Check(ok(o.value), path, message) else []
  }

  function UpdateIssues(u: UpdateFarmerInput, enums: Enums): seq<Issue>
  {
    CheckPresent(u.relationship, r => r in enums.relationships, [Key("relationship")], EnumMessage)
    + CheckPresent(u.gender, g => g in enums.genders, [Key("gender")], EnumMessage)
    + CheckPresent(u.aadharNumber, s => FullMatch(AadharPattern, s), [Key("aadharNumber")], "Invalid")
    + CheckPresent(u.contactNumber, s => FullMatch(ContactPattern, s), [Key("contactNumber")], "Invalid")
  }

  predicate UpdateValid(u: UpdateFarmerInput, enums: Enums)
  {
    && (u.relationship.Some? ==> u.relationship.value in enums.relationships)
    && (u.gender.Some? ==> u.gender.value in enums.genders)
    && (u.aadharNumber.Some? ==> |u.aadharNumber.value| == 12 && AllDigits(u.aadharNumber.value))
    && (u.contactNumber.Some? ==> |u.contactNumber.value| == 10 && AllDigits(u.contactNumber.value))
  }

  /** An update payload is accepted iff every present key passes its check. */
  lemma UpdateIssuesEmptyIff(u: UpdateFarmerInput, enums: Enums)
    ensures UpdateIssues(u, enums) == [] <==> UpdateValid(u, enums)
  {
    if u.aadharNumber.Some? { DigitsPatternMeaning(12, u.aadharNumber.value); }
    if u.contactNumber.Some? { DigitsPatternMeaning(10, u.contactNumber.value); }
  }

  /** The empty update object is valid. */
  lemma EmptyUpdateAccepted(enums: Enums)
    ensures UpdateIssues(EmptyUpdate, enums) == []
  {
  }

  /** A create payload read as an update: every key present with the same value. */
  function AsUpdate(p: CreateFarmerInput): UpdateFarmerInput
  {
    UpdateFarmerInput(Some(p.farmerName), Some(p.relationship), Some(p.gender), Some(p.community),
                      Some(p.aadharNumber), Some(p.contactNumber), Some(p.state), Some(p.district),
                      Some(p.mandal), Some(p.village), Some(p.panchayath), Some(p.dateOfBirth), Some(p.age),
                      Some(UpdateBankDetailsInput(p.bankDetails.ifscCode, p.bankDetails.accountNumber,
                                                  p.bankDetails.branchName, p.bankDetails.bankAddress,
                                                  p.bankDetails.bankName, p.bankDetails.bankCode)))
  }

  /**
   * Every payload the create schema accepts passes the update schema, and
   * the update schema checks only the enums and the two digit strings: the
   * name, the IFSC code, the account number and the fields are free there.
   */
  lemma UpdateLooserThanCreate(p: CreateFarmerInput, enums: Enums)
    ensures CreateValid(p, enums) ==> UpdateValid(AsUpdate(p), enums)
    ensures UpdateValid(AsUpdate(p), enums) <==>
              && p.relationship in enums.relationships && p.gender in enums.genders
              && |p.aadharNumber| == 12 && AllDigits(p.aadharNumber)
              && |p.contactNumber| == 10 && AllDigits(p.contactNumber)
  {
  }
}
