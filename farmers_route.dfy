/**
 * The farmers collection endpoint.
 *
 * POST validates the form, generates a survey number, uploads the three
 * personal documents and one land document per field, and only then writes
 * the farmer aggregate; anything thrown on the way is turned into an HTTP
 * answer by one classifier. GET builds a filter from the query, counts the
 * matches and returns one page of them, newest first.
 *
 * The farmer table and the storage bucket are the fields of `FarmerStore`.
 */
module FarmersRoute {
  import opened Wrappers
  import opened Text
  import opened Records
  import opened Ordering
  import opened Validation
  import opened SurveyNumber

  // =====================================================================
  // What the handler can throw, and how the catch block answers it
  // =====================================================================

  /**
   * A thrown value: a schema error with its issues, or any other value with
   * the properties the catch block reads (`instanceof Error`, `message`,
   * `statusCode`, `code`, `meta.target`; "" or [] where absent).
   */
  datatype Thrown =
    | ZodError(issues: seq<Issue>)
    | Raised(isError: bool, message: string, statusCode: string, code: string, target: seq<string>)

  /** `new Error(message)` */
  function PlainError(message: string): Thrown
  {
    Raised(true, message, "", "", [])
  }

  datatype Detail = Detail(field: string, message: string)

  datatype ErrorBody =
    | ValidationFailed(details: seq<Detail>)
    | Described(error: string, detail: string)
    | PrismaInfo(message: string, detail: string)
    | EmptyBody

  datatype Failed = Failed(status: nat, body: ErrorBody)

  const GenericFailure := Failed(500, Described("Failed to create farmer record",
    "An unexpected error occurred. Please try again or contact support if the issue persists."))

  function SegmentText(s: PathSegment): string
  {
    match s
    case Key(k) => k
    case Index(i) => Decimal(i)
  }

  function SegmentTexts(path: seq<PathSegment>): (r: seq<string>)
    ensures |r| == |path| && forall i :: 0 <= i < |path| ==> r[i] == SegmentText(path[i])
  {
    seq(|path|, i requires 0 <= i < |path| => SegmentText(path[i]))
  }

  /** `e.path.join('.')` */
  function PathText(path: seq<PathSegment>): string
  {
    Join(SegmentTexts(path), ".")
  }

  /** One detail per issue, in order, naming the issue's dotted path. */
  function Details(issues: seq<Issue>): (r: seq<Detail>)
    ensures |r| == |issues|
    ensures forall i :: 0 <= i < |issues| ==> r[i] == Detail(PathText(issues[i].path), issues[i].message)
  {
    seq(|issues|, i requires 0 <= i < |issues| => Detail(PathText(issues[i].path), issues[i].message))
  }

  predicate IsFileMessage(m: string)
  {
    Contains(m, "document is required") || Contains(m, "file type") || Contains(m, "file size")
  }

  function StorageMessage(statusCode: string): string
  {
    if statusCode == "413" then "File size too large (max 5MB)"
    else if statusCode == "400" then "Invalid file format (allowed: jpg, png, pdf)"
    else "File upload failed"
  }

  /** The catch block of POST, branch by branch. */
  function Classify(t: Thrown): Failed
  {
    match t
    case ZodError(issues) => Failed(400, ValidationFailed(Details(issues)))
    case Raised(isError, message, statusCode, code, target) =>
      if isError && IsFileMessage(message) then Failed(400, Described("File validation failed", message))
      else if statusCode != "" then
        Failed(if statusCode == "413" || statusCode == "400" then 400 else 500,
               Described(StorageMessage(statusCode), message))
      else if code == "P2002" && |target| > 0 && target[0] != "" then
        Failed(400, Described("Duplicate entry for " + target[0], "A farmer with this " + target[0] + " already exists"))
      else if code == "P2002" then Failed(400, EmptyBody)
      else if code == "P2003" then Failed(400, PrismaInfo("Invalid reference", "Referenced record does not exist"))
      else if code == "P2025" then Failed(400, PrismaInfo("Record not found", "Required related record could not be found"))
      else GenericFailure
  }

  /** The classifier's answer, stated as which thrown values are the client's fault. */
  predicate ClientFault(t: Thrown)
  {
    t.ZodError?
    || (t.isError && IsFileMessage(t.message))
    || (t.statusCode != "" && (t.statusCode == "413" || t.statusCode == "400"))
    || (t.statusCode == "" && (t.code == "P2002" || t.code == "P2003" || t.code == "P2025"))
  }

  /** Every answer is 400 or 500, and 400 exactly for the client's faults. */
  lemma ClassifyStatus(t: Thrown)
    ensures Classify(t).status == 400 || Classify(t).status == 500
    ensures Classify(t).status == 400 <==> ClientFault(t)
  {
  }

  /** A storage status other than 413 or 400 is a 500, whatever else the value carries. */
  lemma OtherStorageStatusIs500(t: Thrown)
    requires t.Raised? && !(t.isError && IsFileMessage(t.message))
    requires t.statusCode != "" && t.statusCode != "413" && t.statusCode != "400"
    ensures Classify(t) == Failed(500, Described("File upload failed", t.message))
  {
  }

  /** A unique-constraint failure with a target names the first target column. */
  lemma DuplicateNamesField(message: string, field: string, rest: seq<string>)
    requires field != "" && !IsFileMessage(message)
    ensures Classify(Raised(true, message, "", "P2002", [field] + rest)) ==
              Failed(400, Described("Duplicate entry for " + field, "A farmer with this " + field + " already exists"))
  {
  }

  /** A schema issue inside a field is reported under its dotted path, the field's index in decimal. */
  lemma FieldIssueDetail(index: nat, name: string, m: string)
    ensures Classify(ZodError([Issue([Key("fields"), Index(index), Key(name)], m)])) ==
              Failed(400, ValidationFailed([Detail("fields." + Decimal(index) + "." + name, m)]))
  {
    var issues := [Issue([Key("fields"), Index(index), Key(name)], m)];
    FieldPathText(index, name);
    assert Details(issues)[0] == Detail("fields." + Decimal(index) + "." + name, m);
    assert Details(issues) == [Detail("fields." + Decimal(index) + "." + name, m)];
  }

  /** The path of a field's key reads `fields.<index>.<key>`. */
  lemma FieldPathText(index: nat, name: string)
    ensures PathText([Key("fields"), Index(index), Key(name)]) == "fields." + Decimal(index) + "." + name
  {
    var segs := SegmentTexts([Key("fields"), Index(index), Key(name)]);
    assert segs == ["fields", Decimal(index), name];
    assert Join(segs[1..][1..], ".") == name;
    assert Join(segs[1..], ".") == Decimal(index) + "." + name;
  }

  // =====================================================================
  // Uploads
  // =====================================================================

  /**
   * A file part of the form, bundled with what the environment answers when
   * it is uploaded: the clock reading `Date.now()` and the storage error, if
   * any.
   */
  datatype Attachment = Attachment(file: FileMeta, uploadedAt: nat, storageError: Option<string>)

  /** `formData.get(key)`, null when the key is absent. */
  function FormFile(files: map<string, Attachment>, key: string): Option<Attachment>
  {
    if key in files then Some(files[key]) else None
  }

  /** The form key of field i's land document. */
  function FieldDocKey(i: nat): string
  {
    "fieldDoc_" + Decimal(i)
  }

  /** `${surveyNumber}_${Date.now()}.${file.name.split('.').pop()}` */
  function StoredName(surveyNumber: string, uploadedAt: nat, originalName: string): string
  {
    surveyNumber + "_" + Decimal(uploadedAt) + "." + AfterLastDot(originalName)
  }

  /** The object path `${folder}/${fileName}` in the bucket. */
  function ObjectPath(folder: string, name: string): string
  {
    folder + "/" + name
  }

  /** What the storage answers when an object already exists at the path. */
  const AlreadyExists := "The resource already exists"

  /** `uploadFile(file, folder)`: its checks in order, then the upload of `folder/name`. */
  function UploadFile(att: Option<Attachment>, folder: string, surveyNumber: string, objects: set<string>): Result<string, Thrown>
  {
    if att.None? then Failure(PlainError(folder + " document is required"))
    else if FileIssues(att.value.file) != [] then Failure(ZodError(FileIssues(att.value.file)))
    else
      var name := StoredName(surveyNumber, att.value.uploadedAt, att.value.file.name);
      if ObjectPath(folder, name) in objects then
        Failure(PlainError("Failed to upload " + folder + " document: " + AlreadyExists))
      else if att.value.storageError.Some? then
        Failure(PlainError("Failed to upload " + folder + " document: " + att.value.storageError.value))
      else Success(name)
  }

  /** What a successful upload implies: there was a file, and the name is its stored name at a free path. */
  lemma UploadSucceeded(att: Option<Attachment>, folder: string, surveyNumber: string, objects: set<string>)
    requires UploadFile(att, folder, surveyNumber, objects).Success?
    ensures att.Some? && FileAccepted(att.value.file)
    ensures UploadFile(att, folder, surveyNumber, objects).value == StoredName(surveyNumber, att.value.uploadedAt, att.value.file.name)
    ensures ObjectPath(folder, UploadFile(att, folder, surveyNumber, objects).value) !in objects
  {
    FileIssuesEmptyIff(att.value.file);
  }

  /** The stored name keeps the original file's extension. */
  lemma StoredNameKeepsExtension(surveyNumber: string, uploadedAt: nat, originalName: string)
    ensures AfterLastDot(StoredName(surveyNumber, uploadedAt, originalName)) == AfterLastDot(originalName)
  {
    var ext := AfterLastDot(originalName);
    var front := surveyNumber + "_" + Decimal(uploadedAt) + ".";
    var s := front + ext;
    AfterLastDotOfSuffix(front, ext);
  }

  lemma {:induction false} AfterLastDotOfSuffix(front: string, ext: string)
    requires |front| > 0 && front[|front| - 1] == '.' && '.' !in ext
    ensures AfterLastDot(front + ext) == ext
  {
    if ext == [] {
      assert front + ext == front;
    } else {
      var s := front + ext;
      assert s[..|s| - 1] == front + ext[..|ext| - 1];
      AfterLastDotOfSuffix(front, ext[..|ext| - 1]);
      assert ext == ext[..|ext| - 1] + [ext[|ext| - 1]];
    }
  }

  /** A missing document is answered 400 with "<folder> document is required". */
  lemma MissingDocumentAnswer(folder: string, surveyNumber: string, objects: set<string>)
    ensures UploadFile(None, folder, surveyNumber, objects).Failure?
    ensures Classify(UploadFile(None, folder, surveyNumber, objects).error) ==
              Failed(400, Described("File validation failed", folder + " document is required"))
  {
    ContainsSuffix(folder + " document is required", "document is required");
  }

  /**
   * A refused upload is rethrown as a plain error, so the catch block's
   * storage branch never sees it: it is a 400 only when the storage's
   * message happens to carry one of the file phrases, and a 500 otherwise.
   */
  lemma StorageRefusalAnswer(folder: string, storageMessage: string)
    ensures var m := "Failed to upload " + folder + " document: " + storageMessage;
            Classify(PlainError(m)) ==
              if IsFileMessage(m) then Failed(400, Described("File validation failed", m)) else GenericFailure
  {
  }

  /**
   * Two land documents with the same extension uploaded in the same
   * millisecond get the same object path, so the second upload is refused.
   */
  lemma SameMillisecondLandDocsCollide(surveyNumber: string, a: Attachment, b: Attachment, objects: set<string>)
    requires FileIssues(b.file) == []
    requires a.uploadedAt == b.uploadedAt && AfterLastDot(a.file.name) == AfterLastDot(b.file.name)
    requires UploadFile(Some(a), "land-doc", surveyNumber, objects).Success?
    ensures var name := UploadFile(Some(a), "land-doc", surveyNumber, objects).value;
            UploadFile(Some(b), "land-doc", surveyNumber, objects + {ObjectPath("land-doc", name)}).Failure?
  {
    var name := StoredName(surveyNumber, a.uploadedAt, a.file.name);
    assert StoredName(surveyNumber, b.uploadedAt, b.file.name) == name;
  }

  // =====================================================================
  // A run of uploads
  // =====================================================================

  /** A form key and the bucket folder its file is uploaded to. */
  datatype Slot = Slot(key: string, folder: string)

  /** The personal documents, in the order the handler uploads them. */
  const DocumentSlots: seq<Slot> :=
    [Slot("profilePic", "profile-pic"), Slot("aadharDoc", "aadhar-doc"), Slot("bankDoc", "bank-doc")]

  /** The land documents of `n` fields, `fieldDoc_0` first. */
  function FieldSlots(n: nat): (r: seq<Slot>)
    ensures |r| == n && forall k :: 0 <= k < n ==> r[k] == Slot(FieldDocKey(k), "land-doc")
  {
    seq(n, k requires 0 <= k < n => Slot(FieldDocKey(k), "land-doc"))
  }

  /** What a run of uploads leaves: the stored names or the first error thrown, and the bucket. */
  datatype Uploads = Uploads(result: Result<seq<string>, Thrown>, objects: set<string>)

  /** The run `u`, after `names` were stored by the uploads before it. */
  function After(names: seq<string>, u: Uploads): Uploads
  {
    if u.result.Success? then Uploads(Success(names + u.result.value), u.objects) else u
  }

  /** The slots uploaded one after another; the first upload that throws ends the run. */
  function UploadAll(files: map<string, Attachment>, slots: seq<Slot>, sn: string, objects: set<string>): Uploads
  {
    if slots == [] then Uploads(Success([]), objects)
    else
      var first := UploadFile(FormFile(files, slots[0].key), slots[0].folder, sn, objects);
      if first.Failure? then Uploads(Failure(first.error), objects)
      else After([first.value], UploadAll(files, slots[1..], sn, objects + {ObjectPath(slots[0].folder, first.value)}))
  }

  /** Where the upload of `slot` puts its file. */
  function SlotPath(files: map<string, Attachment>, slot: Slot, sn: string): string
    requires slot.key in files
  {
    ObjectPath(slot.folder, StoredName(sn, files[slot.key].uploadedAt, files[slot.key].file.name))
  }

  /** The paths of all the slots. */
  function SlotPaths(files: map<string, Attachment>, slots: seq<Slot>, sn: string): set<string>
    requires forall k :: 0 <= k < |slots| ==> slots[k].key in files
  {
    if slots == [] then {} else {SlotPath(files, slots[0], sn)} + SlotPaths(files, slots[1..], sn)
  }

  /** The upload of `slot` goes through: there is a file, it passes the file schema, its path is free and the storage takes it. */
  predicate SlotOk(files: map<string, Attachment>, slot: Slot, sn: string, objects: set<string>)
  {
    && slot.key in files && FileAccepted(files[slot.key].file) && files[slot.key].storageError.None?
    && SlotPath(files, slot, sn) !in objects
  }

  /** Every upload of the run goes through: each slot is ok on its own and no two slots share a path. */
  predicate SlotsAccepted(files: map<string, Attachment>, slots: seq<Slot>, sn: string, objects: set<string>)
  {
    && (forall k :: 0 <= k < |slots| ==> SlotOk(files, slots[k], sn, objects))
    && (forall j, k :: 0 <= j < k < |slots| ==> SlotPath(files, slots[j], sn) != SlotPath(files, slots[k], sn))
  }

  /** One upload succeeds exactly when its slot is ok, and then stores the slot's name. */
  lemma UploadSlot(files: map<string, Attachment>, slot: Slot, sn: string, objects: set<string>)
    ensures var u := UploadFile(FormFile(files, slot.key), slot.folder, sn, objects);
            && (u.Success? <==> SlotOk(files, slot, sn, objects))
            && (u.Success? ==> ObjectPath(slot.folder, u.value) == SlotPath(files, slot, sn)
                               && u.value == NameFor(files, slot.key, sn))
  {
    if slot.key in files {
      FileIssuesEmptyIff(files[slot.key].file);
    }
  }

  /** A run is accepted when its first slot is ok and the rest is accepted in the bucket that upload leaves. */
  lemma SlotsAcceptedCons(files: map<string, Attachment>, slots: seq<Slot>, sn: string, objects: set<string>)
    requires slots != []
    ensures SlotsAccepted(files, slots, sn, objects) <==>
              && SlotOk(files, slots[0], sn, objects)
              && SlotsAccepted(files, slots[1..], sn, objects + {SlotPath(files, slots[0], sn)})
  {
    var rest := slots[1..];
    if SlotsAccepted(files, slots, sn, objects) {
      var grown := objects + {SlotPath(files, slots[0], sn)};
      forall k | 0 <= k < |rest| ensures SlotOk(files, rest[k], sn, grown) {
        assert rest[k] == slots[k + 1];
        assert SlotOk(files, slots[k + 1], sn, objects);
        assert SlotPath(files, slots[0], sn) != SlotPath(files, slots[k + 1], sn);
      }
      forall j, k | 0 <= j < k < |rest| ensures SlotPath(files, rest[j], sn) != SlotPath(files, rest[k], sn) {
        assert rest[j] == slots[j + 1] && rest[k] == slots[k + 1];
      }
    }
    if SlotOk(files, slots[0], sn, objects) && SlotsAccepted(files, rest, sn, objects + {SlotPath(files, slots[0], sn)}) {
      forall k | 0 <= k < |slots| ensures SlotOk(files, slots[k], sn, objects) {
        if k > 0 {
          assert slots[k] == rest[k - 1];
        }
      }
      forall j, k | 0 <= j < k < |slots| ensures SlotPath(files, slots[j], sn) != SlotPath(files, slots[k], sn) {
        assert slots[k] == rest[k - 1];
        if j > 0 {
          assert slots[j] == rest[j - 1];
        } else {
          assert SlotOk(files, rest[k - 1], sn, objects + {SlotPath(files, slots[0], sn)});
        }
      }
    }
  }

  /** A run of uploads succeeds exactly when every one of its slots is accepted. */
  lemma {:induction false} UploadAllSucceedsIff(files: map<string, Attachment>, slots: seq<Slot>, sn: string, objects: set<string>)
    ensures UploadAll(files, slots, sn, objects).result.Success? <==> SlotsAccepted(files, slots, sn, objects)
  {
    if slots != [] {
      UploadSlot(files, slots[0], sn, objects);
      SlotsAcceptedCons(files, slots, sn, objects);
      var first := UploadFile(FormFile(files, slots[0].key), slots[0].folder, sn, objects);
      if first.Success? {
        UploadAllSucceedsIff(files, slots[1..], sn, objects + {ObjectPath(slots[0].folder, first.value)});
      }
    }
  }

  /** A successful run stores slot k under its name, and adds exactly the slots' paths to the bucket. */
  lemma {:induction false} UploadAllStored(files: map<string, Attachment>, slots: seq<Slot>, sn: string, objects: set<string>)
    ensures var u := UploadAll(files, slots, sn, objects);
            u.result.Success? ==>
              && |u.result.value| == |slots|
              && (forall k :: 0 <= k < |slots| ==> slots[k].key in files && u.result.value[k] == NameFor(files, slots[k].key, sn))
              && (forall k :: 0 <= k < |slots| ==> ObjectPath(slots[k].folder, u.result.value[k]) in u.objects)
              && u.objects == objects + SlotPaths(files, slots, sn)
  {
    if slots != [] {
      UploadSlot(files, slots[0], sn, objects);
      var first := UploadFile(FormFile(files, slots[0].key), slots[0].folder, sn, objects);
      if first.Success? {
        var grown := objects + {ObjectPath(slots[0].folder, first.value)};
        UploadAllStored(files, slots[1..], sn, grown);
        UploadAllGrows(files, slots[1..], sn, grown);
        var u := UploadAll(files, slots, sn, objects);
        if u.result.Success? {
          var rest := UploadAll(files, slots[1..], sn, grown).result.value;
          assert u.result.value == [first.value] + rest;
          forall k | 0 <= k < |slots|
            ensures slots[k].key in files && u.result.value[k] == NameFor(files, slots[k].key, sn)
            ensures ObjectPath(slots[k].folder, u.result.value[k]) in u.objects
          {
            if k > 0 {
              assert slots[k] == slots[1..][k - 1];
            }
          }
        }
      }
    }
  }

  /**
   * The run failed at slot k with error `e`, leaving the bucket `after`:
   * the slots before k were all accepted and uploaded, and slot k is not ok
   * in the bucket they left, its upload throwing `e`.
   */
  predicate FailedAt(files: map<string, Attachment>, slots: seq<Slot>, sn: string, objects: set<string>,
                     k: nat, e: Thrown, after: set<string>)
  {
    && k < |slots| && SlotsAccepted(files, slots[..k], sn, objects)
    && after == objects + SlotPaths(files, slots[..k], sn)
    && !SlotOk(files, slots[k], sn, after)
    && UploadFile(FormFile(files, slots[k].key), slots[k].folder, sn, after) == Failure(e)
  }

  /** A failed run failed at its first slot that is not ok, with the error that slot's upload throws. */
  lemma {:induction false} UploadAllFailsAtFirst(files: map<string, Attachment>, slots: seq<Slot>, sn: string, objects: set<string>)
    ensures var u := UploadAll(files, slots, sn, objects);
            u.result.Failure? ==> exists k :: FailedAt(files, slots, sn, objects, k, u.result.error, u.objects)
  {
    var u := UploadAll(files, slots, sn, objects);
    if slots != [] && u.result.Failure? {
      UploadSlot(files, slots[0], sn, objects);
      var first := UploadFile(FormFile(files, slots[0].key), slots[0].folder, sn, objects);
      if first.Failure? {
        assert slots[..0] == [];
        assert FailedAt(files, slots, sn, objects, 0, u.result.error, u.objects);
      } else {
        var grown := objects + {SlotPath(files, slots[0], sn)};
        UploadAllFailsAtFirst(files, slots[1..], sn, grown);
        var k :| FailedAt(files, slots[1..], sn, grown, k, u.result.error, u.objects);
        FailedAtShift(files, slots, sn, objects, k, u.result.error, u.objects);
      }
    }
  }

  /** A failure at slot k of the rest of a run, after an accepted first slot, is a failure at slot k + 1 of the run. */
  lemma FailedAtShift(files: map<string, Attachment>, slots: seq<Slot>, sn: string, objects: set<string>,
                      k: nat, e: Thrown, after: set<string>)
    requires slots != [] && SlotOk(files, slots[0], sn, objects)
    requires FailedAt(files, slots[1..], sn, objects + {SlotPath(files, slots[0], sn)}, k, e, after)
    ensures FailedAt(files, slots, sn, objects, k + 1, e, after)
  {
    var done := slots[..k + 1];
    assert done[1..] == slots[1..][..k] && done[0] == slots[0];
    SlotsAcceptedCons(files, done, sn, objects);
    assert SlotPaths(files, done, sn) == {SlotPath(files, slots[0], sn)} + SlotPaths(files, slots[1..][..k], sn);
    assert slots[k + 1] == slots[1..][k];
  }

  /** A run never removes an object from the bucket. */
  lemma {:induction false} UploadAllGrows(files: map<string, Attachment>, slots: seq<Slot>, sn: string, objects: set<string>)
    ensures objects <= UploadAll(files, slots, sn, objects).objects
  {
    if slots != [] {
      var first := UploadFile(FormFile(files, slots[0].key), slots[0].folder, sn, objects);
      if first.Success? {
        UploadAllGrows(files, slots[1..], sn, objects + {ObjectPath(slots[0].folder, first.value)});
      }
    }
  }

  /** Two runs one after the other are the run of both: the second starts in the bucket the first left. */
  lemma {:induction false} UploadAllAppend(files: map<string, Attachment>, a: seq<Slot>, b: seq<Slot>, sn: string, objects: set<string>)
    ensures var first := UploadAll(files, a, sn, objects);
            UploadAll(files, a + b, sn, objects) ==
              if first.result.Failure? then first else After(first.result.value, UploadAll(files, b, sn, first.objects))
  {
    if a == [] {
      assert a + b == b;
      AfterNothing(UploadAll(files, b, sn, objects));
    } else {
      assert (a + b)[0] == a[0] && (a + b)[1..] == a[1..] + b;
      var up := UploadFile(FormFile(files, a[0].key), a[0].folder, sn, objects);
      if up.Success? {
        var grown := objects + {ObjectPath(a[0].folder, up.value)};
        UploadAllAppend(files, a[1..], b, sn, grown);
        var rest := UploadAll(files, a[1..], sn, grown);
        assert UploadAll(files, a + b, sn, objects) == After([up.value], UploadAll(files, a[1..] + b, sn, grown));
        assert UploadAll(files, a, sn, objects) == After([up.value], rest);
        if rest.result.Success? {
          AfterAfter([up.value], rest.result.value, UploadAll(files, b, sn, rest.objects));
        }
      }
    }
  }

  lemma AfterNothing(u: Uploads)
    ensures After([], u) == u
  {
    if u.result.Success? {
      assert [] + u.result.value == u.result.value;
    }
  }

  lemma AfterAfter(x: seq<string>, y: seq<string>, u: Uploads)
    ensures After(x, After(y, u)) == After(x + y, u)
  {
    if u.result.Success? {
      assert x + (y + u.result.value) == (x + y) + u.result.value;
    }
  }

  // =====================================================================
  // The stored aggregate
  // =====================================================================

  /**
   * The field rows of the new farmer: field i keeps the validated values
   * and gets the i-th uploaded land document.
   */
  function FieldRecords(fields: seq<FieldInput>, docs: seq<string>): (r: seq<Field>)
    requires |docs| == |fields|
    ensures |r| == |fields|
    ensures forall i :: 0 <= i < |fields| ==>
              r[i] == Field(fields[i].areaHa, fields[i].yieldEstimate, fields[i].location, docs[i])
  {
    if fields == [] then []
    else [Field(fields[0].areaHa, fields[0].yieldEstimate, fields[0].location, docs[0])]
         + FieldRecords(fields[1..], docs[1..])
  }

  /** `String(value)` of a plain object, which `JSON.parse` reads when handed one. */
  const PlainObjectText: string := "[object Object]"

  /** The characters JSON allows right after an opening '[': a value's start, blank space or ']'. */
  predicate MayFollowArrayOpen(c: char)
  {
    c in {'{', '[', ']', '"', '-', 't', 'f', 'n', ' ', '\t', '\n', '\r'} || IsDigit(c)
  }

  /** Text whose first two characters `JSON.parse` gets past. */
  predicate JsonOpeningOk(text: string)
  {
    |text| >= 2 && (text[0] == '[' ==> MayFollowArrayOpen(text[1]))
  }

  /** What `JSON.parse` throws on `PlainObjectText`. */
  const ReparseMessage: string := "Unexpected token o in JSON at position 1"

  /**
   * The location column as written: `JSON.parse(field.location)` where
   * `field.location` is the object the schema returned, so the text parsed
   * is `PlainObjectText`.
   */
  function LocationColumnAsWritten(loc: Location): Result<Location, Thrown>
  {
    if JsonOpeningOk(PlainObjectText) then Success(loc)
    else Failure(Raised(true, ReparseMessage, "", "", []))
  }

  /** Re-parsing the location object always throws. */
  lemma LocationReparseFails(loc: Location)
    ensures LocationColumnAsWritten(loc) == Failure(Raised(true, ReparseMessage, "", "", []))
  {
    assert PlainObjectText[1] == 'o';
  }

  /** The parse error carries none of the file phrases and no status code, so it is answered 500. */
  lemma ReparseAnswered500()
    ensures Classify(Raised(true, ReparseMessage, "", "", [])) == GenericFailure
  {
    ReparseMessageNotAboutFiles();
  }

  lemma ReparseMessageNotAboutFiles()
    ensures !IsFileMessage(ReparseMessage)
  {
    NoLetter(ReparseMessage, 'u');
    NoLetter(ReparseMessage, 'f');
    AbsentCharNotContained(ReparseMessage, "document is required", 3);
    AbsentCharNotContained(ReparseMessage, "file type", 0);
    AbsentCharNotContained(ReparseMessage, "file size", 0);
  }

  /** What `JSON.parse` throws on `PlainObjectText` has no 'u' and no 'f'. */
  lemma NoLetter(m: string, c: char)
    requires m == ReparseMessage && (c == 'u' || c == 'f')
    ensures c !in m
  {
    forall i | 0 <= i < |m| ensures m[i] != c {
    }
  }

  /**
   * As written, building the field rows throws for every validated field,
   * and the catch block answers 500: no create with at least one field can
   * succeed.
   */
  lemma ValidatedCreateFailsAsWritten(p: CreateFarmerInput, enums: Enums)
    requires CreateValid(p, enums)
    ensures LocationColumnAsWritten(p.fields[0].location).Failure?
    ensures Classify(LocationColumnAsWritten(p.fields[0].location).error) == GenericFailure
  {
    LocationReparseFails(p.fields[0].location);
    ReparseAnswered500();
  }

  /** A text that lacks one of t's characters does not contain t. */
  lemma AbsentCharNotContained(m: string, t: string, j: nat)
    requires j < |t| && t[j] !in m
    ensures !Contains(m, t)
  {
  }

  function BankRow(b: BankDetailsInput): BankDetails
  {
    BankDetails(b.ifscCode, b.accountNumber, b.branchName, b.bankAddress, b.bankName, b.bankCode)
  }

  /** The aggregate `prisma.farmer.create` writes. */
  function NewFarmer(id: nat, surveyNumber: string, p: CreateFarmerInput, docs: Documents,
                     fieldDocs: seq<string>, callerId: int, now: int): Farmer
    requires |fieldDocs| == |p.fields|
  {
    Farmer(id, surveyNumber, p.farmerName, p.relationship, p.gender, p.community,
           p.aadharNumber, p.contactNumber, p.state, p.district, p.mandal, p.village, p.panchayath,
           p.dateOfBirth, p.age, Some(docs), Some(BankRow(p.bankDetails)),
           FieldRecords(p.fields, fieldDocs), callerId, callerId, now, now)
  }

  /** Every document file name the row holds names an object in the bucket. */
  predicate DocumentsStored(f: Farmer, objects: set<string>)
  {
    && (f.documents.Some? ==>
          && ObjectPath("profile-pic", f.documents.value.profilePicUrl) in objects
          && ObjectPath("aadhar-doc", f.documents.value.aadharDocUrl) in objects
          && ObjectPath("bank-doc", f.documents.value.bankDocUrl) in objects)
    && forall i :: 0 <= i < |f.fields| ==> ObjectPath("land-doc", f.fields[i].landDocumentUrl) in objects
  }

  datatype CreateResponse = CreatedFarmer(farmer: Farmer) | CreateFailed(failure: Failed)

  /** What Prisma throws when the creator or updater column references no user row. */
  const ForeignKeyFailure := Raised(true, "Foreign key constraint failed", "", "P2003", [])

  /**
   * The answer after validation, given the run of uploads: the first upload
   * error, else the foreign-key failure when the caller has no user row,
   * else the created farmer.
   */
  predicate AnswersUploads(r: CreateResponse, up: Uploads, callerId: int, userIds: set<int>)
  {
    && (up.result.Failure? ==> r == CreateFailed(Classify(up.result.error)))
    && (up.result.Success? && callerId !in userIds ==> r == CreateFailed(Classify(ForeignKeyFailure)))
    && (up.result.Success? && callerId in userIds ==> r.CreatedFarmer?)
  }

  /** The name the upload of form key `key` into `folder` stores, when it succeeds. */
  function NameFor(files: map<string, Attachment>, key: string, surveyNumber: string): string
    requires key in files
  {
    StoredName(surveyNumber, files[key].uploadedAt, files[key].file.name)
  }

  /** Documents stored for a row stay stored when the bucket only grows. */
  lemma DocumentsStayStored(f: Farmer, before: set<string>, after: set<string>)
    requires DocumentsStored(f, before) && before <= after
    ensures DocumentsStored(f, after)
  {
  }

  /**
   * What the store keeps true between requests: survey numbers are unique,
   * every document a row names is in the bucket, and ids are below the
   * next one to hand out.
   */
  predicate StoreInvariant(farmers: seq<Farmer>, objects: set<string>, nextId: nat)
  {
    && UniqueSurveyNumbers(farmers)
    && (forall i :: 0 <= i < |farmers| ==> DocumentsStored(farmers[i], objects))
    && (forall i :: 0 <= i < |farmers| ==> farmers[i].id < nextId)
  }

  /** Uploading more objects keeps the invariant. */
  lemma BucketGrowthKeepsInvariant(farmers: seq<Farmer>, before: set<string>, after: set<string>, nextId: nat)
    requires StoreInvariant(farmers, before, nextId) && before <= after
    ensures StoreInvariant(farmers, after, nextId)
  {
    forall i | 0 <= i < |farmers| ensures DocumentsStored(farmers[i], after) {
      DocumentsStayStored(farmers[i], before, after);
    }
  }

  /** Appending a row with a fresh survey number, its documents stored and the next id keeps the invariant. */
  lemma InsertKeepsInvariant(farmers: seq<Farmer>, objects: set<string>, nextId: nat, f: Farmer)
    requires StoreInvariant(farmers, objects, nextId)
    requires f.surveyNumber !in SurveyNumbers(farmers) && DocumentsStored(f, objects) && f.id == nextId
    ensures StoreInvariant(farmers + [f], objects, nextId + 1)
  {
    var rows := farmers + [f];
    forall i, j | 0 <= i < j < |rows| ensures rows[i].surveyNumber != rows[j].surveyNumber {
      if j == |farmers| {
        assert rows[i] in farmers;
      }
    }
  }

  /** The three personal documents carry the names their uploads store. */
  predicate DocsNamed(files: map<string, Attachment>, surveyNumber: string, docs: Documents)
  {
    && "profilePic" in files && "aadharDoc" in files && "bankDoc" in files
    && docs == Documents(NameFor(files, "profilePic", surveyNumber), NameFor(files, "aadharDoc", surveyNumber),
                         NameFor(files, "bankDoc", surveyNumber))
  }

  /** The three personal documents are in the bucket under their folders. */
  predicate DocsUploaded(docs: Documents, objects: set<string>)
  {
    && ObjectPath("profile-pic", docs.profilePicUrl) in objects
    && ObjectPath("aadhar-doc", docs.aadharDocUrl) in objects
    && ObjectPath("bank-doc", docs.bankDocUrl) in objects
  }

  /** Land document k carries the name the upload of form key `fieldDoc_k` stores. */
  predicate FieldDocsNamed(files: map<string, Attachment>, surveyNumber: string, names: seq<string>, n: nat)
  {
    && |names| == n
    && forall k :: 0 <= k < n ==> FieldDocKey(k) in files && names[k] == NameFor(files, FieldDocKey(k), surveyNumber)
  }

  /** Every land document is in the bucket under `land-doc`. */
  predicate FieldDocsUploaded(names: seq<string>, objects: set<string>)
  {
    forall k :: 0 <= k < |names| ==> ObjectPath("land-doc", names[k]) in objects
  }

  /**
   * The row the handler creates: the validated payload, a well-formed
   * survey number, the caller as creator and updater, the clock reading as
   * both timestamps, each document under the name its upload stored, the
   * bank details, and one field row per validated field with its land
   * document.
   */
  predicate Recorded(f: Farmer, id: nat, input: CreateFarmerInput, files: map<string, Attachment>,
                     callerId: int, now: int)
  {
    && f.id == id && WellFormed(f.surveyNumber)
    && f.name == input.farmerName && f.relationship == input.relationship && f.gender == input.gender
    && f.community == input.community && f.aadharNumber == input.aadharNumber
    && f.contactNumber == input.contactNumber && f.state == input.state && f.district == input.district
    && f.mandal == input.mandal && f.village == input.village && f.panchayath == input.panchayath
    && f.dateOfBirth == input.dateOfBirth && f.age == input.age
    && f.createdById == callerId && f.updatedById == callerId && f.createdAt == now && f.updatedAt == now
    && f.documents.Some? && DocsNamed(files, f.surveyNumber, f.documents.value)
    && f.bankDetails == Some(BankRow(input.bankDetails))
    && |f.fields| == |input.fields|
    && (forall i :: 0 <= i < |input.fields| ==>
          && FieldDocKey(i) in files
          && f.fields[i] == Field(input.fields[i].areaHa, input.fields[i].yieldEstimate,
                                  input.fields[i].location, NameFor(files, FieldDocKey(i), f.surveyNumber)))
  }

  /** The aggregate built from successful uploads is the row the handler promises, with its documents stored. */
  lemma NewFarmerRecorded(id: nat, surveyNumber: string, input: CreateFarmerInput, docs: Documents,
                          fieldDocs: seq<string>, files: map<string, Attachment>, callerId: int, now: int,
                          objects: set<string>)
    requires WellFormed(surveyNumber)
    requires DocsNamed(files, surveyNumber, docs) && DocsUploaded(docs, objects)
    requires FieldDocsNamed(files, surveyNumber, fieldDocs, |input.fields|) && FieldDocsUploaded(fieldDocs, objects)
    ensures Recorded(NewFarmer(id, surveyNumber, input, docs, fieldDocs, callerId, now), id, input, files, callerId, now)
    ensures DocumentsStored(NewFarmer(id, surveyNumber, input, docs, fieldDocs, callerId, now), objects)
  {
  }

  /** The farmer table and the storage bucket. */
  class FarmerStore {
    var farmers: seq<Farmer>
    var objects: set<string>
    var nextId: nat

    ghost predicate Valid()
      reads this
    {
      StoreInvariant(farmers, objects, nextId)
    }

    constructor ()
      ensures Valid() && farmers == [] && objects == {} && nextId == 1
    {
      farmers := [];
      objects := {};
      nextId := 1;
    }

    /** `uploadFile`: the checks, then one object written at `folder/name`. */
    method Upload(att: Option<Attachment>, folder: string, surveyNumber: string) returns (r: Result<string, Thrown>)
      modifies this`objects
      ensures r == UploadFile(att, folder, surveyNumber, old(objects))
      ensures r.Success? ==> att.Some? && r.value == StoredName(surveyNumber, att.value.uploadedAt, att.value.file.name)
      ensures objects == if r.Success? then old(objects) + {ObjectPath(folder, r.value)} else old(objects)
    {
      if att.None? {
        return Failure(PlainError(folder + " document is required"));
      }
      var file := att.value.file;
      var issues := FileIssues(file);
      if issues != [] {
        return Failure(ZodError(issues));
      }
      var name := StoredName(surveyNumber, att.value.uploadedAt, file.name);
      var path := ObjectPath(folder, name);
      if path in objects {
        return Failure(PlainError("Failed to upload " + folder + " document: " + AlreadyExists));
      }
      if att.value.storageError.Some? {
        return Failure(PlainError("Failed to upload " + folder + " document: " + att.value.storageError.value));
      }
      objects := objects + {path};
      r := Success(name);
    }

    /**
     * POST: parse, validate, then persist. `fieldsSyntaxError` is the
     * message `JSON.parse` throws on the `fields` part, if it throws;
     * `userIds` are the user rows the creator and updater columns may
     * reference.
     */
    method Create(callerId: int, input: CreateFarmerInput, fieldsSyntaxError: Option<string>,
                  files: map<string, Attachment>, enums: Enums, draws: seq<Draw>,
                  userIds: set<int>, now: int) returns (r: CreateResponse)
      requires Valid()
      requires forall i :: 0 <= i < |draws| ==> ValidDraw(draws[i])
      requires exists i :: 0 <= i < |draws| && Candidate(draws[i]) !in SurveyNumbers(farmers)
      modifies this
      ensures Valid()
      ensures old(objects) <= objects
      ensures r.CreateFailed? ==> farmers == old(farmers) && nextId == old(nextId)
      ensures fieldsSyntaxError.Some? ==>
                r == CreateFailed(Classify(PlainError(fieldsSyntaxError.value))) && objects == old(objects)
      ensures fieldsSyntaxError.None? && !CreateValid(input, enums) ==>
                r == CreateFailed(Classify(ZodError(CreateIssues(input, enums)))) && objects == old(objects)
      ensures FirstFree(draws, SurveyNumbers(old(farmers))).Some?
      ensures fieldsSyntaxError.None? && CreateValid(input, enums) ==>
                var sn := FirstFree(draws, SurveyNumbers(old(farmers))).value;
                var up := UploadAll(files, DocumentSlots + FieldSlots(|input.fields|), sn, old(objects));
                objects == up.objects && AnswersUploads(r, up, callerId, userIds)
      ensures r.CreatedFarmer? <==>
                && fieldsSyntaxError.None? && CreateValid(input, enums) && callerId in userIds
                && SlotsAccepted(files, DocumentSlots + FieldSlots(|input.fields|),
                                 FirstFree(draws, SurveyNumbers(old(farmers))).value, old(objects))
      ensures r.CreatedFarmer? ==>
                && farmers == old(farmers) + [r.farmer] && nextId == old(nextId) + 1
                && r.farmer.surveyNumber == FirstFree(draws, SurveyNumbers(old(farmers))).value
                && Recorded(r.farmer, old(nextId), input, files, callerId, now)
                && DocumentsStored(r.farmer, objects)
    {
      FirstFreeFound(draws, SurveyNumbers(farmers));
      if fieldsSyntaxError.Some? {
        return CreateFailed(Classify(PlainError(fieldsSyntaxError.value)));
      }
      var issues := CreateIssues(input, enums);
      CreateIssuesEmptyIff(input, enums);
      if issues != [] {
        return CreateFailed(Classify(ZodError(issues)));
      }
      ghost var sn := FirstFree(draws, SurveyNumbers(farmers)).value;
      UploadAllSucceedsIff(files, DocumentSlots + FieldSlots(|input.fields|), sn, objects);
      r := Persist(callerId, input, files, draws, userIds, now);
    }

    /**
     * After validation: draw a survey number, upload the three personal
     * documents and the land documents, check the caller's user row, then
     * write the row. A failure at any step leaves the table as it was,
     * though documents already uploaded stay in the bucket.
     */
    method Persist(callerId: int, input: CreateFarmerInput, files: map<string, Attachment>,
                   draws: seq<Draw>, userIds: set<int>, now: int) returns (r: CreateResponse)
      requires Valid()
      requires forall i :: 0 <= i < |draws| ==> ValidDraw(draws[i])
      requires FirstFree(draws, SurveyNumbers(farmers)).Some?
      modifies this
      ensures Valid()
      ensures old(objects) <= objects
      ensures r.CreateFailed? ==> farmers == old(farmers) && nextId == old(nextId)
      ensures var sn := FirstFree(draws, SurveyNumbers(old(farmers))).value;
              var up := UploadAll(files, DocumentSlots + FieldSlots(|input.fields|), sn, old(objects));
              objects == up.objects && AnswersUploads(r, up, callerId, userIds)
      ensures r.CreatedFarmer? ==>
                && farmers == old(farmers) + [r.farmer] && nextId == old(nextId) + 1
                && r.farmer.surveyNumber == FirstFree(draws, SurveyNumbers(old(farmers))).value
                && Recorded(r.farmer, old(nextId), input, files, callerId, now)
                && DocumentsStored(r.farmer, objects)
    {
      var drawn, _ := GenerateSurveyNumber(draws, SurveyNumbers(farmers));
      var sn := drawn.value;
      ghost var before := objects;
      var uploaded := UploadEveryDocument(files, sn, |input.fields|);
      BucketGrowthKeepsInvariant(farmers, before, objects, nextId);
      if uploaded.Failure? {
        return CreateFailed(Classify(uploaded.error));
      }
      if callerId !in userIds {
        return CreateFailed(Classify(ForeignKeyFailure));
      }
      var docs := uploaded.value.0;
      var fieldDocs := uploaded.value.1;
      var farmer := NewFarmer(nextId, sn, input, docs, fieldDocs, callerId, now);
      NewFarmerRecorded(nextId, sn, input, docs, fieldDocs, files, callerId, now, objects);
      InsertKeepsInvariant(farmers, objects, nextId, farmer);
      farmers := farmers + [farmer];
      nextId := nextId + 1;
      r := CreatedFarmer(farmer);
    }

    /** The personal documents, then one land document for each of `n` fields: one run of uploads. */
    method UploadEveryDocument(files: map<string, Attachment>, sn: string, n: nat)
      returns (r: Result<(Documents, seq<string>), Thrown>)
      modifies this`objects
      ensures var up := UploadAll(files, DocumentSlots + FieldSlots(n), sn, old(objects));
              && objects == up.objects
              && (r.Failure? <==> up.result.Failure?)
              && (r.Failure? ==> r.error == up.result.error)
      ensures old(objects) <= objects
      ensures r.Success? ==>
                && DocsNamed(files, sn, r.value.0) && DocsUploaded(r.value.0, objects)
                && FieldDocsNamed(files, sn, r.value.1, n) && FieldDocsUploaded(r.value.1, objects)
    {
      UploadAllAppend(files, DocumentSlots, FieldSlots(n), sn, objects);
      var docs := UploadDocuments(files, sn);
      if docs.Failure? {
        return Failure(docs.error);
      }
      ghost var middle := objects;
      var fieldDocs := UploadFieldDocs(files, sn, n);
      if fieldDocs.Failure? {
        return Failure(fieldDocs.error);
      }
      assert DocsUploaded(docs.value, objects);
      r := Success((docs.value, fieldDocs.value));
    }

    /** The three personal documents, uploaded in the order the handler lists them. */
    method UploadDocuments(files: map<string, Attachment>, sn: string) returns (r: Result<Documents, Thrown>)
      modifies this`objects
      ensures var u := UploadAll(files, DocumentSlots, sn, old(objects));
              && objects == u.objects
              && (u.result.Failure? ==> r == Failure(u.result.error))
              && (u.result.Success? ==> |u.result.value| == 3
                                        && r == Success(Documents(u.result.value[0], u.result.value[1], u.result.value[2])))
      ensures old(objects) <= objects
      ensures r.Success? ==> DocsNamed(files, sn, r.value) && DocsUploaded(r.value, objects)
    {
      UploadAllStored(files, DocumentSlots, sn, objects);
      UploadAllGrows(files, DocumentSlots, sn, objects);
      var names := UploadRun(files, DocumentSlots, sn);
      if names.Failure? {
        return Failure(names.error);
      }
      r := Success(Documents(names.value[0], names.value[1], names.value[2]));
    }

    /** One land document per field, `fieldDoc_0` first; the names come back in field order. */
    method UploadFieldDocs(files: map<string, Attachment>, sn: string, n: nat) returns (r: Result<seq<string>, Thrown>)
      modifies this`objects
      ensures r == UploadAll(files, FieldSlots(n), sn, old(objects)).result
      ensures objects == UploadAll(files, FieldSlots(n), sn, old(objects)).objects
      ensures old(objects) <= objects
      ensures r.Success? ==> FieldDocsNamed(files, sn, r.value, n) && FieldDocsUploaded(r.value, objects)
    {
      UploadAllStored(files, FieldSlots(n), sn, objects);
      UploadAllGrows(files, FieldSlots(n), sn, objects);
      r := UploadRun(files, FieldSlots(n), sn);
    }

    /** `Promise.all(slots.map(uploadFile))`, one upload after another. */
    method UploadRun(files: map<string, Attachment>, slots: seq<Slot>, sn: string) returns (r: Result<seq<string>, Thrown>)
      modifies this`objects
      ensures r == UploadAll(files, slots, sn, old(objects)).result
      ensures objects == UploadAll(files, slots, sn, old(objects)).objects
    {
      var names: seq<string> := [];
      var i := 0;
      assert slots[0..] == slots;
      AfterNothing(UploadAll(files, slots, sn, objects));
      while i < |slots|
        invariant 0 <= i <= |slots| && |names| == i
        invariant UploadAll(files, slots, sn, old(objects)) == After(names, UploadAll(files, slots[i..], sn, objects))
      {
        assert slots[i..][0] == slots[i] && slots[i..][1..] == slots[i + 1..];
        ghost var before := objects;
        var doc := Upload(FormFile(files, slots[i].key), slots[i].folder, sn);
        if doc.Failure? {
          assert UploadAll(files, slots[i..], sn, before) == Uploads(Failure(doc.error), before);
          return Failure(doc.error);
        }
        AfterAfter(names, [doc.value], UploadAll(files, slots[i + 1..], sn, objects));
        names := names + [doc.value];
        i := i + 1;
      }
      assert slots[|slots|..] == [] && names + [] == names;
      r := Success(names);
    }
  }

  // =====================================================================
  // GET: filter, count, page
  // =====================================================================

  /** A query parameter that is present and non-empty (`if (search)`). */
  predicate Given(o: Option<string>)
  {
    o.Some? && o.value != ""
  }

  datatype ListQuery = ListQuery(page: int, limit: int, search: Option<string>,
                                 state: Option<string>, district: Option<string>)

  /** The query string as the handler reads it: each parameter absent or its text. */
  datatype ListParams = ListParams(page: Option<string>, limit: Option<string>, search: Option<string>,
                                   state: Option<string>, district: Option<string>)

  /**
   * `parseInt(searchParams.get(name) || fallback)`: an absent or empty
   * parameter reads the fallback. `parseInt` is modelled on digit strings;
   * any other text reads as NaN, here None.
   */
  function IntParam(raw: Option<string>, fallback: string): Option<int>
  {
    var text := if raw.None? || raw.value == "" then fallback else raw.value;
    if text != "" && AllDigits(text) then Some(ValueOf(text)) else None
  }

  /** The query the handler works with; None when page or limit reads as NaN. */
  function ReadQuery(p: ListParams): Option<ListQuery>
  {
    var page := IntParam(p.page, "1");
    var limit := IntParam(p.limit, "10");
    if page.None? || limit.None? then None
    else Some(ListQuery(page.value, limit.value, p.search, p.state, p.district))
  }

  /** Without a page or a limit parameter (or with an empty one) the handler lists page 1, ten rows a page. */
  lemma AbsentParamsDefault(p: ListParams)
    requires p.page.None? || p.page == Some("")
    requires p.limit.None? || p.limit == Some("")
    ensures ReadQuery(p) == Some(ListQuery(1, 10, p.search, p.state, p.district))
  {
    assert AllDigits("1") && ValueOf("1") == 1;
    assert "10"[..1] == "1";
    assert AllDigits("10") && ValueOf("10") == 10;
  }

  /** Page and limit written in decimal are read back as those numbers; search and filters pass through. */
  lemma DecimalParamsRead(page: nat, limit: nat, p: ListParams)
    requires p.page == Some(Decimal(page)) && p.limit == Some(Decimal(limit))
    ensures ReadQuery(p) == Some(ListQuery(page, limit, p.search, p.state, p.district))
  {
    DecimalRoundTrip(page);
    DecimalRoundTrip(limit);
  }

  /** The `where` object the handler builds. */
  datatype Where = Where(search: Option<string>, state: Option<string>, district: Option<string>)

  /** How the store reads `where`: the OR of four `contains`, then exact state and district. */
  predicate WhereMatches(w: Where, f: Farmer)
  {
    && (w.search.Some? ==>
          || Contains(Lower(f.name), Lower(w.search.value))
          || Contains(Lower(f.surveyNumber), Lower(w.search.value))
          || Contains(f.aadharNumber, w.search.value)
          || Contains(f.contactNumber, w.search.value))
    && (w.state.Some? ==> f.state == w.state.value)
    && (w.district.Some? ==> f.district == w.district.value)
  }

  /** The search term occurs in the name or survey number ignoring case, or in the Aadhar or contact number. */
  predicate SearchHit(term: string, f: Farmer)
  {
    Contains(Lower(f.name), Lower(term)) || Contains(Lower(f.surveyNumber), Lower(term))
    || Contains(f.aadharNumber, term) || Contains(f.contactNumber, term)
  }

  /** Which farmers a query asks for; empty parameters filter nothing. */
  predicate QueryMatches(q: ListQuery, f: Farmer)
  {
    && (Given(q.search) ==> SearchHit(q.search.value, f))
    && (Given(q.state) ==> f.state == q.state.value)
    && (Given(q.district) ==> f.district == q.district.value)
  }

  /** The step-by-step construction of `where`. */
  method BuildWhere(q: ListQuery) returns (w: Where)
    ensures forall f :: WhereMatches(w, f) <==> QueryMatches(q, f)
  {
    w := Where(None, None, None);
    if Given(q.search) {
      w := w.(search := q.search);
    }
    if Given(q.state) {
      w := w.(state := q.state);
    }
    if Given(q.district) {
      w := w.(district := q.district);
    }
  }

  /** The rows `where` selects, in table order. */
  function Matching(w: Where, farmers: seq<Farmer>): seq<Farmer>
  {
    if farmers == [] then []
    else (if WhereMatches(w, farmers[0]) then [farmers[0]] else []) + Matching(w, farmers[1..])
  }

  /** The rows a query asks for, each as often as in the table. */
  function Selected(q: ListQuery, farmers: seq<Farmer>): (r: seq<Farmer>)
    ensures forall f :: multiset(r)[f] == if QueryMatches(q, f) then multiset(farmers)[f] else 0
  {
    if farmers == [] then []
    else
      assert farmers == [farmers[0]] + farmers[1..];
      (if QueryMatches(q, farmers[0]) then [farmers[0]] else []) + Selected(q, farmers[1..])
  }

  /** A `where` that matches what the query asks for selects exactly the query's rows. */
  lemma {:induction false} MatchingIsSelected(w: Where, q: ListQuery, farmers: seq<Farmer>)
    requires forall f :: WhereMatches(w, f) <==> QueryMatches(q, f)
    ensures Matching(w, farmers) == Selected(q, farmers)
  {
    if farmers != [] {
      MatchingIsSelected(w, q, farmers[1..]);
    }
  }

  function NegCreatedAt(f: Farmer): int
  {
    -f.createdAt
  }

  /** `Math.ceil(total / limit)`: the fewest pages of `limit` rows that hold `total` rows. */
  function PageCount(total: nat, limit: nat): (pages: nat)
    requires 0 < limit
    ensures total <= pages * limit
    ensures 0 < pages ==> (pages - 1) * limit < total
  {
    var pages := (total + limit - 1) / limit;
    DivBounds(total + limit - 1, limit);
    pages
  }

  lemma DivBounds(a: nat, b: nat)
    requires 0 < b
    ensures 0 <= a / b && (a / b) * b <= a < (a / b) * b + b
  {
  }

  datatype ListResponse = ListResponse(farmers: seq<Farmer>, total: nat, pages: nat, currentPage: int, limit: int)

  /** A slice of a sequence sorted newest first is sorted newest first. */
  lemma NewestFirstSlice(s: seq<Farmer>, lo: nat, hi: nat)
    requires SortedBy(s, NegCreatedAt) && lo <= hi <= |s|
    ensures forall i, j :: 0 <= i < j < hi - lo ==> s[lo..hi][i].createdAt >= s[lo..hi][j].createdAt
  {
    forall i, j | 0 <= i < j < hi - lo
      ensures s[lo..hi][i].createdAt >= s[lo..hi][j].createdAt
    {
      assert NegCreatedAt(s[lo + i]) <= NegCreatedAt(s[lo + j]);
    }
  }

  /** A window of a sequence sorted newest first is sorted newest first. */
  lemma WindowNewestFirst(s: seq<Farmer>, skip: nat, limit: nat)
    requires SortedBy(s, NegCreatedAt)
    ensures var w := Window(s, skip, Some(limit));
            forall i, j :: 0 <= i < j < |w| ==> w[i].createdAt >= w[j].createdAt
  {
    var w := Window(s, skip, Some(limit));
    if skip <= |s| {
      NewestFirstSlice(s, skip, skip + |w|);
    }
  }

  /** Whatever a window of the sorted matches holds is a row of the table the query asks for. */
  lemma WindowRowsSelected(q: ListQuery, table: seq<Farmer>, page: seq<Farmer>, skip: nat, limit: nat)
    requires page == Window(SortBy(Selected(q, table), NegCreatedAt), skip, Some(limit))
    ensures forall f :: f in page ==> f in table && QueryMatches(q, f)
  {
    var ordered := SortBy(Selected(q, table), NegCreatedAt);
    forall f | f in page ensures f in table && QueryMatches(q, f) {
      assert f in ordered;
      assert f in multiset(ordered);
      assert multiset(Selected(q, table))[f] > 0;
    }
  }

  /** `(page - 1) * limit`: how many rows come before page `page` when a page holds `limit` rows. */
  function RowsBefore(page: int, limit: int): (r: int)
    ensures 1 <= page && 0 <= limit ==> 0 <= r
  {
    (page - 1) * limit
  }

  /**
   * One page of the query's rows: the matches ordered newest first, after
   * skipping (page - 1) * limit of them and taking at most limit.
   */
  function PageOf(q: ListQuery, table: seq<Farmer>): seq<Farmer>
    requires 1 <= q.page && 1 <= q.limit
  {
    Window(SortBy(Selected(q, table), NegCreatedAt), RowsBefore(q.page, q.limit), Some(q.limit))
  }

  /** A page holds at most `limit` rows, each a row of the table the query asks for, newest first. */
  lemma PageRows(q: ListQuery, table: seq<Farmer>)
    requires 1 <= q.page && 1 <= q.limit
    ensures |PageOf(q, table)| <= q.limit
    ensures forall f :: f in PageOf(q, table) ==> f in table && QueryMatches(q, f)
    ensures forall i, j :: 0 <= i < j < |PageOf(q, table)| ==> PageOf(q, table)[i].createdAt >= PageOf(q, table)[j].createdAt
  {
    var ordered := SortBy(Selected(q, table), NegCreatedAt);
    var skip := RowsBefore(q.page, q.limit);
    WindowRowsSelected(q, table, PageOf(q, table), skip, q.limit);
    WindowNewestFirst(ordered, skip, q.limit);
  }

  /** The page read through an equivalent `where` is the query's page. */
  lemma WherePage(w: Where, q: ListQuery, table: seq<Farmer>)
    requires 1 <= q.page && 1 <= q.limit
    requires forall f :: WhereMatches(w, f) <==> QueryMatches(q, f)
    ensures Matching(w, table) == Selected(q, table)
    ensures Window(SortBy(Matching(w, table), NegCreatedAt), RowsBefore(q.page, q.limit), Some(q.limit)) == PageOf(q, table)
  {
    MatchingIsSelected(w, q, table);
  }

  /** GET: one page of the matches, the number of all matches, and the page count. */
  method ListFarmers(table: seq<Farmer>, q: ListQuery) returns (r: ListResponse)
    requires 1 <= q.page && 1 <= q.limit
    ensures r.farmers == PageOf(q, table)
    ensures r.total == |Selected(q, table)|
    ensures r.pages == PageCount(r.total, q.limit)
    ensures r.currentPage == q.page && r.limit == q.limit
  {
    var skip := RowsBefore(q.page, q.limit);
    var w := BuildWhere(q);
    var matches := Matching(w, table);
    var page := Window(SortBy(matches, NegCreatedAt), skip, Some(q.limit));
    WherePage(w, q, table);
    r := ListResponse(page, |matches|, PageCount(|matches|, q.limit), q.page, q.limit);
  }

  /** Every match is on the page k / limit + 1 of the sorted matches, and that page is within `pages`. */
  lemma EveryMatchOnItsPage(q: ListQuery, table: seq<Farmer>, limit: nat, k: nat)
    requires 0 < limit && k < |Selected(q, table)|
    ensures var ordered := SortBy(Selected(q, table), NegCreatedAt);
            var page := k / limit + 1;
            && 1 <= page <= PageCount(|Selected(q, table)|, limit)
            && ordered[k] in Window(ordered, RowsBefore(page, limit), Some(limit))
  {
    var matches := Selected(q, table);
    var ordered := SortBy(matches, NegCreatedAt);
    EveryRowOnItsPage(ordered, limit, k);
  }

  lemma EveryRowOnItsPage<T>(s: seq<T>, limit: nat, k: nat)
    requires 0 < limit && k < |s|
    ensures 1 <= k / limit + 1 <= PageCount(|s|, limit)
    ensures s[k] in Window(s, RowsBefore(k / limit + 1, limit), Some(limit))
  {
    var p := k / limit;
    DivBounds(k, limit);
    var skip := RowsBefore(p + 1, limit);
    assert skip == p * limit;
    WindowHolds(s, skip, limit, k);
    PagesAboveIndex(k, limit, PageCount(|s|, limit));
  }

  lemma WindowHolds<T>(s: seq<T>, skip: nat, limit: nat, k: nat)
    requires skip <= k < skip + limit && k < |s|
    ensures s[k] in Window(s, skip, Some(limit))
  {
    assert Window(s, skip, Some(limit))[k - skip] == s[k];
  }

  /** With k < pages * limit, the page of index k is at most `pages`. */
  lemma PagesAboveIndex(k: nat, limit: nat, pages: nat)
    requires 0 < limit && k < pages * limit
    ensures k / limit + 1 <= pages
  {
    DivBounds(k, limit);
    if pages < k / limit + 1 {
      MulMonotone(pages, k / limit, limit);
    }
  }

  lemma MulMonotone(a: nat, b: nat, c: nat)
    requires a <= b
    ensures a * c <= b * c
  {
  }
}
