/**
 * The farmer export endpoint: an active ADMIN asks for all farmers, one
 * page or a range of pages, newest first; every document is linked by a
 * signed URL, the rows go into a PDF or a spreadsheet stored in the bucket,
 * and the answer is a signed download link and the number of rows.
 *
 * Signing is a parameter `sign(path, seconds)` answering the signed URL or
 * nothing; the clock and the date formatting are parameters too.
 */
module Export {
  import opened Wrappers
  import opened Text
  import opened Records
  import opened Ordering
  import FarmersRoute

  /** Seven days: how long a document link stays valid. */
  const DocumentLinkSeconds: nat := 7 * 24 * 60 * 60
  /** One day: how long the download link stays valid. */
  const DownloadLinkSeconds: nat := 24 * 60 * 60

  datatype ExportOptions = ExportOptions(format: string, range: string,
                                         pageStart: Option<int>, pageEnd: Option<int>, limit: Option<int>)

  // =====================================================================
  // Which rows are read
  // =====================================================================

  /** `options.limit || 10` */
  function PageSize(limit: Option<int>): int
  {
    if limit.None? || limit.value == 0 then 10 else limit.value
  }

  /** What the store is asked for: `skip`, and `take` when there is one. */
  datatype ReadWindow = ReadWindow(skip: int, take: Option<int>)

  /** The window a range asks for; a page bound the range needs but lacks gives NaN, which the store refuses. */
  function RangeWindow(o: ExportOptions): Result<ReadWindow, string>
  {
    var size := PageSize(o.limit);
    if o.range == "CURRENT_PAGE" then
      if o.pageStart.None? then Failure("NaN")
      else Success(ReadWindow((o.pageStart.value - 1) * size, Some(size)))
    else if o.range == "CUSTOM_RANGE" then
      if o.pageStart.None? || o.pageEnd.None? then Failure("NaN")
      else Success(ReadWindow((o.pageStart.value - 1) * size,
                              Some((o.pageEnd.value - o.pageStart.value + 1) * size)))
    else Success(ReadWindow(0, None))
  }

  /** The handler's if/else chain over `skip` and `take`. */
  method RangeToWindow(o: ExportOptions) returns (w: Result<ReadWindow, string>)
    ensures w == RangeWindow(o)
  {
    var skip := 0;
    var take: Option<int> := None;
    if o.range == "CURRENT_PAGE" {
      if o.pageStart.None? {
        return Failure("NaN");
      }
      skip := (o.pageStart.value - 1) * PageSize(o.limit);
      take := Some(PageSize(o.limit));
    } else if o.range == "CUSTOM_RANGE" {
      if o.pageStart.None? || o.pageEnd.None? {
        return Failure("NaN");
      }
      skip := (o.pageStart.value - 1) * PageSize(o.limit);
      take := Some((o.pageEnd.value - o.pageStart.value + 1) * PageSize(o.limit));
    }
    w := Success(ReadWindow(skip, take));
  }

  /**
   * How the store reads a window of the ordered rows: a negative skip is
   * refused, no take reads to the end, and a negative take counts from the
   * end of the list.
   */
  function Read<T>(s: seq<T>, w: ReadWindow): Result<seq<T>, string>
  {
    if w.skip < 0 then Failure("skip must be non-negative")
    else if w.take.None? then Success(Window(s, w.skip, None))
    else if w.take.value >= 0 then Success(Window(s, w.skip, Some(w.take.value)))
    else Success(Reversed(Window(Reversed(s), w.skip, Some(-w.take.value))))
  }

  /** Any range other than CURRENT_PAGE and CUSTOM_RANGE, ALL among them, reads every row. */
  lemma OtherRangesReadAll<T>(o: ExportOptions, s: seq<T>)
    requires o.range != "CURRENT_PAGE" && o.range != "CUSTOM_RANGE"
    ensures RangeWindow(o) == Success(ReadWindow(0, None))
    ensures Read(s, RangeWindow(o).value) == Success(s)
  {
    var all := Window(s, 0, None);
    assert |all| == |s| && all == s[0..|all|];
    assert all == s;
  }

  /** A page size of 0 or none means 10 rows a page. */
  lemma DefaultPageSize(o: ExportOptions, page: int)
    requires o.range == "CURRENT_PAGE" && o.pageStart == Some(page)
    requires o.limit.None? || o.limit == Some(0)
    ensures RangeWindow(o) == Success(ReadWindow((page - 1) * 10, Some(10)))
  {
  }

  /** A negative take reads the last rows: with no skip, take -n gives the final n. */
  lemma NegativeTakeReadsTail<T>(s: seq<T>, n: int)
    requires 0 < n <= |s|
    ensures Read(s, ReadWindow(0, Some(-n))) == Success(s[|s| - n..])
  {
    var back := Window(Reversed(s), 0, Some(n));
    assert back == Reversed(s)[0..n];
    ReversedPrefix(s, n, back);
  }

  lemma ReversedPrefix<T>(s: seq<T>, n: nat, back: seq<T>)
    requires n <= |s| && back == Reversed(s)[0..n]
    ensures Reversed(back) == s[|s| - n..]
  {
    var r := Reversed(back);
    forall i | 0 <= i < n ensures r[i] == s[|s| - n + i] {
      assert r[i] == back[n - 1 - i];
    }
  }

  /** `count` pages of `size` rows one after the other, the first starting at row `skip`. */
  function PagesFrom<T>(s: seq<T>, skip: nat, count: nat, size: nat): seq<T>
    decreases count
  {
    if count == 0 then [] else Window(s, skip, Some(size)) + PagesFrom(s, skip + size, count - 1, size)
  }

  /** A window of `count` pages is those pages, in order. */
  lemma {:induction false} WindowIsItsPages<T>(s: seq<T>, skip: nat, count: nat, size: nat)
    ensures Window(s, skip, Some(count * size)) == PagesFrom(s, skip, count, size)
    decreases count
  {
    if count == 0 {
      assert Window(s, skip, Some(0)) == [];
    } else {
      var later: nat := (count - 1) * size;
      SplitProduct(count, size);
      WindowSplit(s, skip, size, later);
      WindowIsItsPages(s, skip + size, count - 1, size);
    }
  }

  lemma SplitProduct(count: nat, size: nat)
    requires 1 <= count
    ensures count * size == size + (count - 1) * size
  {
  }

  /** Reading a CUSTOM_RANGE from page p to page q gives the pages p .. q one after the other. */
  lemma CustomRangeReadsPages<T>(o: ExportOptions, s: seq<T>)
    requires o.range == "CUSTOM_RANGE" && o.pageStart.Some? && o.pageEnd.Some?
    requires 1 <= o.pageStart.value <= o.pageEnd.value + 1 && 1 <= PageSize(o.limit)
    ensures Read(s, RangeWindow(o).value) ==
              Success(PagesFrom(s, (o.pageStart.value - 1) * PageSize(o.limit),
                                o.pageEnd.value - o.pageStart.value + 1, PageSize(o.limit)))
  {
    var first: nat := o.pageStart.value;
    var count: nat := o.pageEnd.value - o.pageStart.value + 1;
    var size: nat := PageSize(o.limit);
    MulNonNegative(count, size);
    MulNonNegative(first - 1, size);
    var skip: nat := (first - 1) * size;
    assert RangeWindow(o) == Success(ReadWindow(skip, Some(count * size)));
    WindowIsItsPages(s, skip, count, size);
  }

  lemma MulNonNegative(a: nat, b: nat)
    ensures 0 <= a * b
  {
  }

  /**
   * A CURRENT_PAGE export reads the same farmers, in the same order, as
   * the listing shows on that page with the same page size and no filters.
   */
  lemma CurrentPageIsListedPage(o: ExportOptions, table: seq<Farmer>, q: FarmersRoute.ListQuery)
    requires o.range == "CURRENT_PAGE" && o.pageStart == Some(q.page) && o.limit == Some(q.limit)
    requires 1 <= q.page && 1 <= q.limit
    requires !FarmersRoute.Given(q.search) && !FarmersRoute.Given(q.state) && !FarmersRoute.Given(q.district)
    ensures Read(SortBy(table, FarmersRoute.NegCreatedAt), RangeWindow(o).value) ==
              Success(FarmersRoute.PageOf(q, table))
  {
    UnfilteredSelectsAll(q, table);
    assert RangeWindow(o).value == ReadWindow(FarmersRoute.RowsBefore(q.page, q.limit), Some(q.limit));
  }

  lemma {:induction false} UnfilteredSelectsAll(q: FarmersRoute.ListQuery, table: seq<Farmer>)
    requires !FarmersRoute.Given(q.search) && !FarmersRoute.Given(q.state) && !FarmersRoute.Given(q.district)
    ensures FarmersRoute.Selected(q, table) == table
  {
    if table != [] {
      UnfilteredSelectsAll(q, table[1..]);
      assert table == [table[0]] + table[1..];
    }
  }

  // =====================================================================
  // Rows
  // =====================================================================

  datatype BankColumn = BankColumn(ifsc: Option<string>, accountNumber: Option<string>,
                                   bankName: Option<string>, branchName: Option<string>)

  datatype FieldColumn = FieldColumn(areaHa: real, yieldEstimate: real, location: Location, landDocUrl: Option<string>)

  /** A cell of an export row; `Missing` is `undefined`. */
  datatype Cell = Text(text: string) | Number(n: int) | Missing | Bank(bank: BankColumn) | FieldList(fields: seq<FieldColumn>)

  datatype Column = Column(name: string, cell: Cell)

  type Signer = (string, nat) -> Option<string>

  const ColumnNames: seq<string> := [
    "SurveyNumber", "Name", "Gender", "Community", "AadharNumber", "ContactNumber",
    "State", "District", "Mandal", "Village", "Panchayath", "DateOfBirth", "Age",
    "ProfilePicUrl", "AadharDocUrl", "BankDocUrl", "BankDetails", "Fields",
    "CreatedBy", "CreatedAt", "UpdatedBy", "UpdatedAt"]

  /** A stored name, or "undefined" when the farmer has no documents row. */
  function NameOrUndefined(name: Option<string>): string
  {
    if name.Some? then name.value else "undefined"
  }

  /** The bucket path of a document: `folder/name`. */
  function DocPath(folder: string, name: Option<string>): string
  {
    folder + "/" + NameOrUndefined(name)
  }

  function UrlCell(url: Option<string>): Cell
  {
    if url.Some? then Text(url.value) else Missing
  }

  function DocName(f: Farmer, which: nat): Option<string>
    requires which < 3
  {
    if f.documents.None? then None
    else if which == 0 then Some(f.documents.value.profilePicUrl)
    else if which == 1 then Some(f.documents.value.aadharDocUrl)
    else Some(f.documents.value.bankDocUrl)
  }

  /** Field i's entry, with the signed link of field i's land document. */
  function FieldColumns(fields: seq<Field>, sign: Signer): (r: seq<FieldColumn>)
    ensures |r| == |fields|
    ensures forall i :: 0 <= i < |fields| ==>
              r[i] == FieldColumn(fields[i].areaHa, fields[i].yieldEstimate, fields[i].location,
                                  sign(DocPath("land-doc", Some(fields[i].landDocumentUrl)), DocumentLinkSeconds))
  {
    if fields == [] then []
    else [FieldColumn(fields[0].areaHa, fields[0].yieldEstimate, fields[0].location,
                      sign(DocPath("land-doc", Some(fields[0].landDocumentUrl)), DocumentLinkSeconds))]
         + FieldColumns(fields[1..], sign)
  }

  function BankOf(b: Option<BankDetails>): BankColumn
  {
    if b.None? then BankColumn(None, None, None, None)
    else BankColumn(Some(b.value.ifscCode), Some(b.value.accountNumber), Some(b.value.bankName), Some(b.value.branchName))
  }

  /** One farmer's export row, column by column. */
  function Row(f: Farmer, createdBy: string, updatedBy: string, sign: Signer, showTime: int -> string): seq<Column>
  {
    [ Column("SurveyNumber", Text(f.surveyNumber)), Column("Name", Text(f.name)),
      Column("Gender", Text(f.gender)), Column("Community", Text(f.community)),
      Column("AadharNumber", Text(f.aadharNumber)), Column("ContactNumber", Text(f.contactNumber)),
      Column("State", Text(f.state)), Column("District", Text(f.district)),
      Column("Mandal", Text(f.mandal)), Column("Village", Text(f.village)),
      Column("Panchayath", Text(f.panchayath)), Column("DateOfBirth", Text(f.dateOfBirth)),
      Column("Age", Number(f.age)),
      Column("ProfilePicUrl", UrlCell(sign(DocPath("profile-pic", DocName(f, 0)), DocumentLinkSeconds))),
      Column("AadharDocUrl", UrlCell(sign(DocPath("aadhar-doc", DocName(f, 1)), DocumentLinkSeconds))),
      Column("BankDocUrl", UrlCell(sign(DocPath("bank-doc", DocName(f, 2)), DocumentLinkSeconds))),
      Column("BankDetails", Bank(BankOf(f.bankDetails))),
      Column("Fields", FieldList(FieldColumns(f.fields, sign))),
      Column("CreatedBy", Text(createdBy)), Column("CreatedAt", Text(showTime(f.createdAt))),
      Column("UpdatedBy", Text(updatedBy)), Column("UpdatedAt", Text(showTime(f.updatedAt))) ]
  }

  predicate HasColumns(row: seq<Column>)
  {
    |row| == |ColumnNames| && forall i :: 0 <= i < |row| ==> row[i].name == ColumnNames[i]
  }

  /** Every row has the export's columns, in order. */
  lemma RowHasColumns(f: Farmer, createdBy: string, updatedBy: string, sign: Signer, showTime: int -> string)
    ensures HasColumns(Row(f, createdBy, updatedBy, sign, showTime))
  {
  }

  /**
   * A row's Fields entry has one item per field of the farmer, in field
   * order, item i linking field i's land document for seven days.
   */
  lemma RowFieldsAligned(f: Farmer, createdBy: string, updatedBy: string, sign: Signer, showTime: int -> string)
    ensures var cell := Row(f, createdBy, updatedBy, sign, showTime)[17].cell;
            && cell.FieldList? && |cell.fields| == |f.fields|
            && forall i :: 0 <= i < |f.fields| ==>
                 && cell.fields[i].areaHa == f.fields[i].areaHa
                 && cell.fields[i].landDocUrl == sign("land-doc/" + f.fields[i].landDocumentUrl, 604800)
  {
    var cell := Row(f, createdBy, updatedBy, sign, showTime)[17].cell;
    assert cell == FieldList(FieldColumns(f.fields, sign));
    forall i | 0 <= i < |f.fields|
      ensures cell.fields[i].landDocUrl == sign("land-doc/" + f.fields[i].landDocumentUrl, 604800)
    {
      assert "land-doc" + "/" + f.fields[i].landDocumentUrl == "land-doc/" + f.fields[i].landDocumentUrl;
    }
  }

  /** The profile link signs `profile-pic/<name>` for seven days, and `profile-pic/undefined` without a documents row. */
  lemma RowProfileLink(f: Farmer, createdBy: string, updatedBy: string, sign: Signer, showTime: int -> string)
    ensures var cell := Row(f, createdBy, updatedBy, sign, showTime)[13].cell;
            && (f.documents.Some? ==> cell == UrlCell(sign("profile-pic/" + f.documents.value.profilePicUrl, 604800)))
            && (f.documents.None? ==> cell == UrlCell(sign("profile-pic/undefined", 604800)))
  {
    if f.documents.Some? {
      assert "profile-pic" + "/" + f.documents.value.profilePicUrl == "profile-pic/" + f.documents.value.profilePicUrl;
    } else {
      assert "profile-pic" + "/" + "undefined" == "profile-pic/undefined";
    }
  }

  /** The nested columns of the tabular export. */
  predicate Nested(name: string)
  {
    name == "BankDetails" || name == "Fields"
  }

  /** `{ ...row, BankDetails: JSON.stringify(..), Fields: JSON.stringify(..) }`, with the serialiser a parameter. */
  function Flatten(row: seq<Column>, stringify: Cell -> string): seq<Column>
  {
    seq(|row|, i requires 0 <= i < |row| =>
      if Nested(row[i].name) then Column(row[i].name, Text(stringify(row[i].cell))) else row[i])
  }

  predicate Flat(c: Cell)
  {
    c.Text? || c.Number? || c.Missing?
  }

  /** Flattening keeps every column in place and replaces only BankDetails and Fields, by their serialised text. */
  lemma FlattenKeepsOtherColumns(row: seq<Column>, stringify: Cell -> string)
    requires HasColumns(row)
    ensures var flat := Flatten(row, stringify);
            && HasColumns(flat)
            && (forall i :: 0 <= i < |flat| && !Nested(ColumnNames[i]) ==> flat[i] == row[i])
            && flat[16].cell == Text(stringify(row[16].cell))
            && flat[17].cell == Text(stringify(row[17].cell))
  {
  }

  /** Outside BankDetails and Fields a row holds only text, numbers and missing values. */
  lemma RowFlatOutsideNested(f: Farmer, createdBy: string, updatedBy: string, sign: Signer, showTime: int -> string)
    ensures var row := Row(f, createdBy, updatedBy, sign, showTime);
            forall i :: 0 <= i < |row| && i != 16 && i != 17 ==> Flat(row[i].cell)
  {
  }

  /** So a flattened row holds nothing nested. */
  lemma FlattenedRowIsFlat(f: Farmer, createdBy: string, updatedBy: string, sign: Signer,
                           showTime: int -> string, stringify: Cell -> string)
    ensures var flat := Flatten(Row(f, createdBy, updatedBy, sign, showTime), stringify);
            forall i :: 0 <= i < |flat| ==> Flat(flat[i].cell)
  {
    var row := Row(f, createdBy, updatedBy, sign, showTime);
    RowHasColumns(f, createdBy, updatedBy, sign, showTime);
    RowFlatOutsideNested(f, createdBy, updatedBy, sign, showTime);
    FlattenKeepsOtherColumns(row, stringify);
    var flat := Flatten(row, stringify);
    forall i | 0 <= i < |flat| ensures Flat(flat[i].cell) {
      if i != 16 && i != 17 {
        assert !Nested(ColumnNames[i]);
      }
    }
  }

  /** One farmer's row with the creator's and updater's names; none when either user row is missing. */
  function RowOf(f: Farmer, users: seq<User>, sign: Signer, showTime: int -> string): Option<seq<Column>>
  {
    var creator := FindUserById(users, f.createdById);
    var updater := FindUserById(users, f.updatedById);
    if creator.None? || updater.None? then None
    else Some(Row(f, creator.value.name, updater.value.name, sign, showTime))
  }

  /** The rows of the farmers read, in order; a missing creator or updater makes the handler throw. */
  function Rows(farmers: seq<Farmer>, users: seq<User>, sign: Signer, showTime: int -> string): (r: Option<seq<seq<Column>>>)
    ensures r.Some? ==> |r.value| == |farmers|
    ensures r.Some? ==> forall i :: 0 <= i < |farmers| ==> RowOf(farmers[i], users, sign, showTime) == Some(r.value[i])
    ensures r.None? <==> exists i :: 0 <= i < |farmers| && RowOf(farmers[i], users, sign, showTime).None?
  {
    if farmers == [] then Some([])
    else
      var first := RowOf(farmers[0], users, sign, showTime);
      var rest := Rows(farmers[1..], users, sign, showTime);
      assert forall i :: 1 <= i < |farmers| ==> farmers[i] == farmers[1..][i - 1];
      if first.None? || rest.None? then None
      else Some([first.value] + rest.value)
  }

  // =====================================================================
  // The export file and the answer
  // =====================================================================

  /** `exports/farmers_<ts>.pdf` or `.xlsx`. */
  function ExportFileName(format: string, ts: nat): string
  {
    "exports/farmers_" + Decimal(ts) + (if format == "PDF" then ".pdf" else ".xlsx")
  }

  predicate EndsWith(s: string, suffix: string)
  {
    |suffix| <= |s| && s[|s| - |suffix|..] == suffix
  }

  /** The file is a PDF exactly when the PDF format is asked for; otherwise it is a spreadsheet. */
  lemma ExportFileNameIsPdfIff(format: string, ts: nat)
    ensures EndsWith(ExportFileName(format, ts), ".pdf") <==> format == "PDF"
    ensures !EndsWith(ExportFileName(format, ts), ".pdf") <==> EndsWith(ExportFileName(format, ts), ".xlsx")
    ensures ExportFileName(format, ts)[..16] == "exports/farmers_"
  {
    var name := ExportFileName(format, ts);
    var front := "exports/farmers_" + Decimal(ts);
    if format == "PDF" {
      assert name == front + ".pdf";
      assert name[|name| - 4..] == ".pdf";
      assert name[|name| - 5] == Decimal(ts)[|Decimal(ts)| - 1];
      assert name[|name| - 5..][0] != '.';
    } else {
      assert name == front + ".xlsx";
      assert name[|name| - 5..] == ".xlsx";
      assert name[|name| - 4..][0] == 'x';
    }
  }

  datatype ExportResponse =
    | ExportForbidden(error: string)
    | ExportFailed
    | Exported(downloadUrl: Option<string>, exportedCount: nat, fileName: string, content: seq<seq<Column>>)

  /**
   * POST: caller checks, the read, the rows, the file and its link.
   * `Exported.content` is what goes into the file: the rows for a PDF
   * (whose layout is not modelled), the flattened rows for a spreadsheet.
   */
  method ExportFarmers(callerId: int, role: string, users: seq<User>, options: Option<ExportOptions>,
                       table: seq<Farmer>, sign: Signer, showTime: int -> string,
                       stringify: Cell -> string, now: nat) returns (r: ExportResponse)
    ensures (FindUserById(users, callerId).None? || !FindUserById(users, callerId).value.isActive) ==>
              r == ExportForbidden("Account is disabled")
    ensures FindUserById(users, callerId).Some? && FindUserById(users, callerId).value.isActive && role != "ADMIN" ==>
              r == ExportForbidden("Only admins can export data")
    ensures r.Exported? ==>
              && FindUserById(users, callerId).Some? && FindUserById(users, callerId).value.isActive
              && role == "ADMIN" && options.Some?
              && RangeWindow(options.value).Success?
              && Read(SortBy(table, FarmersRoute.NegCreatedAt), RangeWindow(options.value).value).Success?
              && r.exportedCount == |Read(SortBy(table, FarmersRoute.NegCreatedAt), RangeWindow(options.value).value).value|
              && |r.content| == r.exportedCount
              && r.fileName == ExportFileName(options.value.format, now)
              && r.downloadUrl == sign(r.fileName, DownloadLinkSeconds)
    ensures r.Exported? <==>
              && FindUserById(users, callerId).Some? && FindUserById(users, callerId).value.isActive
              && role == "ADMIN" && options.Some? && RangeWindow(options.value).Success?
              && Read(SortBy(table, FarmersRoute.NegCreatedAt), RangeWindow(options.value).value).Success?
              && Rows(Read(SortBy(table, FarmersRoute.NegCreatedAt), RangeWindow(options.value).value).value,
                      users, sign, showTime).Some?
    ensures FindUserById(users, callerId).Some? && FindUserById(users, callerId).value.isActive && role == "ADMIN" ==>
              r.Exported? || r.ExportFailed?
    ensures r.Exported? ==>
              var rows := Rows(Read(SortBy(table, FarmersRoute.NegCreatedAt), RangeWindow(options.value).value).value,
                               users, sign, showTime).value;
              && (options.value.format == "PDF" ==> r.content == rows)
              && (options.value.format != "PDF" ==>
                    |r.content| == |rows| && forall i :: 0 <= i < |rows| ==> r.content[i] == Flatten(rows[i], stringify))
  {
    var caller := FindUserById(users, callerId);
    if caller.None? || !caller.value.isActive {
      return ExportForbidden("Account is disabled");
    }
    if role != "ADMIN" {
      return ExportForbidden("Only admins can export data");
    }
    if options.None? {
      return ExportFailed;
    }
    var o := options.value;
    var w := RangeToWindow(o);
    if w.Failure? {
      return ExportFailed;
    }
    var read := Read(SortBy(table, FarmersRoute.NegCreatedAt), w.value);
    if read.Failure? {
      return ExportFailed;
    }
    var rows := Rows(read.value, users, sign, showTime);
    if rows.None? {
      return ExportFailed;
    }
    var fileName := ExportFileName(o.format, now);
    var content := rows.value;
    if o.format != "PDF" {
      content := seq(|rows.value|, i requires 0 <= i < |rows.value| => Flatten(rows.value[i], stringify));
    }
    r := Exported(sign(fileName, DownloadLinkSeconds), |read.value|, fileName, content);
  }
}
