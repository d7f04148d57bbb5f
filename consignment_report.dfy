/** The consignment consolidated report page: the row filter (search over
    four name/id fields and an exact status match), the CSV text it exports,
    and the page state that the report fetch updates. */
module ConsignmentReport {
  import opened Wrappers
  import opened Js
  import Text
  import opened Lists

  /** The fields the search box looks in, in the order they are tried. */
  const SearchKeys: seq<string> := ["consignmentId", "senderName", "travelerName", "recepientName"]
  const StatusKey: string := "consignmentStatus"
  /** The status-filter value that lets every status through. */
  const AnyStatus: string := "all"
  const FetchFailedMessage: string := "Failed to fetch consignment data"

  /** What a row predicate does with one row: keep it, drop it, or throw. */
  datatype Verdict = Keep | Drop | Throws

  /** `field?.toLowerCase().includes(term.toLowerCase())`: a missing field
      short-circuits to undefined (falsy); a field that is not a string has no
      `toLowerCase` and throws. */
  function ProbeField(v: JsValue, term: string): Verdict {
    match v
    case Undefined => Drop
    case Null => Drop
    case Str(s) => if Text.Includes(Text.Lower(s), Text.Lower(term)) then Keep else Drop
    case _ => Throws
  }

  /** The `||` chain over `keys`, left to right, stopping at the first field
      that matches or throws. */
  function SearchFrom(row: JsValue, keys: seq<string>, term: string): (v: Verdict)
    requires !Nullish(row)
  {
    if keys == [] then Drop
    else
      match ProbeField(Read(row, keys[0]), term)
      case Drop => SearchFrom(row, keys[1..], term)
      case v => v
  }

  /** `matchesSearch`; reading a field of a null or undefined row throws. */
  function MatchesSearch(row: JsValue, term: string): (v: Verdict)
    ensures Nullish(row) ==> v == Throws
  {
    if Nullish(row) then Throws else SearchFrom(row, SearchKeys, term)
  }

  /** `matchesStatus`. */
  predicate MatchesStatus(row: JsValue, status: string)
    requires !Nullish(row)
  {
    status == AnyStatus || Read(row, StatusKey) == Str(status)
  }

  /** The callback given to `consignments.filter`. */
  function Decide(row: JsValue, term: string, status: string): (v: Verdict)
    ensures v == Throws <==> MatchesSearch(row, term) == Throws
    ensures v == Keep <==> MatchesSearch(row, term) == Keep && MatchesStatus(row, status)
  {
    match MatchesSearch(row, term)
    case Throws => Throws
    case Drop => Drop
    case Keep => if MatchesStatus(row, status) then Keep else Drop
  }

  /** `filteredConsignments`: None when the callback throws on some row. */
  function Filter(rows: seq<JsValue>, term: string, status: string): (r: Option<seq<JsValue>>)
    ensures r.Some? ==> |r.value| <= |rows|
    ensures r.Some? ==> forall i :: 0 <= i < |r.value| ==> Decide(r.value[i], term, status) == Keep
  {
    if rows == [] then Some([])
    else
      match Decide(rows[0], term, status)
      case Throws => None
      case Drop => Filter(rows[1..], term, status)
      case Keep =>
        match Filter(rows[1..], term, status)
        case None => None
        case Some(rest) => Some([rows[0]] + rest)
  }

  // ----- the search predicate -----

  /** A field the search can read without throwing. */
  predicate Searchable(v: JsValue) {
    Nullish(v) || v.Str?
  }

  /** A row whose four searchable fields are strings or missing. */
  predicate WellTyped(row: JsValue) {
    !Nullish(row) && forall i :: 0 <= i < |SearchKeys| ==> Searchable(Read(row, SearchKeys[i]))
  }

  /** The field holds a string that contains the term, ignoring ASCII case. */
  predicate FieldMatches(v: JsValue, term: string) {
    v.Str? && Text.Includes(Text.Lower(v.s), Text.Lower(term))
  }

  /** Whatever the row's fields hold, a kept row has one of the listed
      fields containing the term, ignoring ASCII case. */
  lemma {:induction false} SearchFromKeepMatches(row: JsValue, keys: seq<string>, term: string)
    requires !Nullish(row) && SearchFrom(row, keys, term) == Keep
    ensures exists i :: 0 <= i < |keys| && FieldMatches(Read(row, keys[i]), term)
  {
    if ProbeField(Read(row, keys[0]), term) == Keep {
      assert FieldMatches(Read(row, keys[0]), term);
    } else {
      SearchFromKeepMatches(row, keys[1..], term);
      var i :| 0 <= i < |keys[1..]| && FieldMatches(Read(row, keys[1..][i]), term);
      assert FieldMatches(Read(row, keys[i + 1]), term);
    }
  }

  lemma {:induction false} SearchFromIff(row: JsValue, keys: seq<string>, term: string)
    requires !Nullish(row)
    requires forall i :: 0 <= i < |keys| ==> Searchable(Read(row, keys[i]))
    ensures SearchFrom(row, keys, term) != Throws
    ensures SearchFrom(row, keys, term) == Keep <==>
              exists i :: 0 <= i < |keys| && FieldMatches(Read(row, keys[i]), term)
  {
    if keys != [] {
      SearchFromIff(row, keys[1..], term);
      if FieldMatches(Read(row, keys[0]), term) {
        assert SearchFrom(row, keys, term) == Keep;
      } else {
        assert forall i :: 1 <= i < |keys| ==> keys[i] == keys[1..][i - 1];
      }
    }
  }

  /** The search is a case-insensitive substring test over exactly the four
      fields `consignmentId`, `senderName`, `travelerName` and `recepientName`,
      and it cannot throw on a row whose four fields are strings or missing. */
  lemma SearchIff(row: JsValue, term: string)
    requires WellTyped(row)
    ensures MatchesSearch(row, term) != Throws
    ensures MatchesSearch(row, term) == Keep <==>
              exists i :: 0 <= i < |SearchKeys| && FieldMatches(Read(row, SearchKeys[i]), term)
  {
    SearchFromIff(row, SearchKeys, term);
  }

  /** A row with none of the four fields is never kept, whatever the search
      term (even the empty one) and whatever the status filter. */
  lemma AllAbsentNeverMatches(row: JsValue, term: string, status: string)
    requires !Nullish(row)
    requires forall i :: 0 <= i < |SearchKeys| ==> Nullish(Read(row, SearchKeys[i]))
    ensures MatchesSearch(row, term) == Drop
    ensures Decide(row, term, status) == Drop
  {
    SearchIff(row, term);
  }

  /** The empty term matches every row that has at least one of the four
      fields as a string (and none that would throw before it). */
  lemma EmptyTermMatchesAnyStringField(row: JsValue, k: nat)
    requires WellTyped(row)
    requires k < |SearchKeys| && Read(row, SearchKeys[k]).Str?
    ensures MatchesSearch(row, "") == Keep
  {
    Text.IncludesIff(Text.Lower(Read(row, SearchKeys[k]).s), Text.Lower(""));
    assert FieldMatches(Read(row, SearchKeys[k]), "");
    SearchIff(row, "");
  }

  /** Changing the case of the term does not change the outcome. */
  lemma SearchIgnoresTermCase(row: JsValue, term: string)
    ensures MatchesSearch(row, Text.Lower(term)) == MatchesSearch(row, term)
  {
    Text.LowerIdempotent(term);
    if !Nullish(row) {
      SearchFromIgnoresTermCase(row, SearchKeys, term);
    }
  }

  lemma {:induction false} SearchFromIgnoresTermCase(row: JsValue, keys: seq<string>, term: string)
    requires !Nullish(row)
    requires Text.Lower(Text.Lower(term)) == Text.Lower(term)
    ensures SearchFrom(row, keys, Text.Lower(term)) == SearchFrom(row, keys, term)
  {
    if keys != [] {
      SearchFromIgnoresTermCase(row, keys[1..], term);
    }
  }

  /** The status filter 'all' imposes nothing: the row's fate is the search's. */
  lemma StatusWildcard(row: JsValue, term: string)
    ensures Decide(row, term, AnyStatus) == MatchesSearch(row, term)
  {
  }

  /** Any other status value keeps exactly the rows that match the search and
      whose `consignmentStatus` is that very string (case-sensitive). */
  lemma StatusExact(row: JsValue, term: string, status: string)
    requires status != AnyStatus
    ensures Decide(row, term, status) == Keep <==>
              MatchesSearch(row, term) == Keep && !Nullish(row) && Read(row, StatusKey) == Str(status)
  {
  }

  // ----- the filter -----

  /** The filter throws exactly when its callback throws on some row. */
  lemma {:induction false} FilterThrowsIff(rows: seq<JsValue>, term: string, status: string)
    ensures Filter(rows, term, status).None? <==>
              exists i :: 0 <= i < |rows| && Decide(rows[i], term, status) == Throws
  {
    if rows != [] {
      FilterThrowsIff(rows[1..], term, status);
      assert forall i :: 1 <= i < |rows| ==> rows[i] == rows[1..][i - 1];
    }
  }

  /** The filtered list is an order-preserving subsequence of the rows. */
  lemma {:induction false} FilterIsSubsequence(rows: seq<JsValue>, term: string, status: string)
    requires Filter(rows, term, status).Some?
    ensures IsSubsequence(Filter(rows, term, status).value, rows)
  {
    if rows != [] {
      FilterIsSubsequence(rows[1..], term, status);
      var r := Filter(rows, term, status).value;
      if Decide(rows[0], term, status) == Keep {
        assert r[1..] == Filter(rows[1..], term, status).value;
      }
    }
  }

  /** Every row is kept as often as it occurs when the callback keeps it, and
      not at all when the callback drops it. */
  lemma {:induction false} FilterCounts(rows: seq<JsValue>, term: string, status: string, x: JsValue)
    requires Filter(rows, term, status).Some?
    ensures multiset(Filter(rows, term, status).value)[x] ==
              if Decide(x, term, status) == Keep then multiset(rows)[x] else 0
  {
    if rows != [] {
      FilterCounts(rows[1..], term, status, x);
      assert rows == [rows[0]] + rows[1..];
    }
  }

  /** So a row is in the filtered list exactly when it is one of the rows and
      passes both predicates. */
  lemma FilterMembership(rows: seq<JsValue>, term: string, status: string, x: JsValue)
    requires Filter(rows, term, status).Some?
    ensures x in Filter(rows, term, status).value <==> x in rows && Decide(x, term, status) == Keep
  {
    FilterCounts(rows, term, status, x);
  }

  /** A list whose rows all pass comes through unchanged. */
  lemma {:induction false} FilterKeepsAllKept(rows: seq<JsValue>, term: string, status: string)
    requires forall i :: 0 <= i < |rows| ==> Decide(rows[i], term, status) == Keep
    ensures Filter(rows, term, status) == Some(rows)
  {
    if rows != [] {
      FilterKeepsAllKept(rows[1..], term, status);
      assert [rows[0]] + rows[1..] == rows;
    }
  }

  /** Filtering is idempotent. */
  lemma FilterIdempotent(rows: seq<JsValue>, term: string, status: string)
    requires Filter(rows, term, status).Some?
    ensures Filter(Filter(rows, term, status).value, term, status) == Filter(rows, term, status)
  {
    FilterKeepsAllKept(Filter(rows, term, status).value, term, status);
  }

  // ----- CSV export -----

  /** One CSV column: its header, the row field it reads and whether the value
      is wrapped in double quotes. */
  datatype Column = Column(header: string, key: string, quoted: bool)

  const Columns: seq<Column> := [
    Column("Consignment ID", "consignmentId", false),
    Column("Consignment Status", "consignmentStatus", false),
    Column("Sender ID", "senderId", false),
    Column("Sender Name", "senderName", true),
    Column("Sender Mobile No", "senderMobileNo", false),
    Column("Sender Address", "senderAddress", true),
    Column("Total Amount Sender", "totalAmountSender", false),
    Column("Payment Status", "paymentStatus", false),
    Column("Traveler Id", "travelerId", false),
    Column("Traveler Acceptance Date", "travelerAcceptanceDate", false),
    Column("Traveler Name", "travelerName", true),
    Column("Traveler Mobile No", "travelerMobileNo", false),
    Column("Traveler Address", "travelerAddress", true),
    Column("Amount to be paid to Traveler", "amountToBePaidToTraveler", false),
    Column("Traveler Payment Status", "travelerPaymentStatus", false),
    Column("Travel Mode", "travelMode", false),
    Column("Travel Start Date", "travelStartDate", false),
    Column("Travel End Date", "travelEndDate", false),
    Column("Recepient Name", "recepientName", true),
    Column("Recepient Address", "recepientAddress", true),
    Column("Recepient Phone no", "recepientPhoneNo", false),
    Column("Received Date", "receivedDate", false),
    Column("T&E Amount", "tneAmount", false),
    Column("Tax Component", "taxComponent", false)
  ]

  function HeaderLine(): string {
    Text.Join(seq(|Columns|, i requires 0 <= i < |Columns| => Columns[i].header), ",")
  }

  /** `value || ''` as it ends up in the text: falsy values become empty. */
  function CellText(v: JsValue): (t: string)
    ensures !Truthy(v) ==> t == ""
  {
    if Truthy(v) then ToString(v) else ""
  }

  /** A string cell is written as it is, the empty string included. */
  lemma StringCellText(v: JsValue)
    requires v.Str?
    ensures CellText(v) == v.s
  {
  }

  function CsvField(row: JsValue, c: Column): (f: string)
    requires !Nullish(row)
    ensures c.quoted ==> |f| >= 2 && f[0] == '"' && f[|f| - 1] == '"' && f[1..|f| - 1] == CellText(Read(row, c.key))
    ensures !c.quoted ==> f == CellText(Read(row, c.key))
  {
    var t := CellText(Read(row, c.key));
    if c.quoted then "\"" + t + "\"" else t
  }

  function CsvFields(row: JsValue): (fs: seq<string>)
    requires !Nullish(row)
    ensures |fs| == |Columns|
  {
    seq(|Columns|, i requires 0 <= i < |Columns| => CsvField(row, Columns[i]))
  }

  function CsvRecord(row: JsValue): string
    requires !Nullish(row)
  {
    Text.Join(CsvFields(row), ",")
  }

  /** The whole file: the header line, then one record per row. */
  function CsvText(rows: seq<JsValue>): (csv: string)
    requires forall i :: 0 <= i < |rows| ==> !Nullish(rows[i])
    ensures |csv| >= |HeaderLine()| && csv[..|HeaderLine()|] == HeaderLine()
    ensures rows == [] ==> csv == HeaderLine()
    ensures rows != [] ==> |csv| > |HeaderLine()| && csv[|HeaderLine()|] == '\n'
  {
    Text.Join([HeaderLine()] + seq(|rows|, i requires 0 <= i < |rows| => CsvRecord(rows[i])), "\n")
  }

  /** `exportToCSV`: the CSV text of the filtered rows (no text when the
      filter throws, in which case the page never rendered its button). */
  function ExportText(rows: seq<JsValue>, term: string, status: string): (csv: Option<string>)
    ensures csv.Some? <==> Filter(rows, term, status).Some?
  {
    match Filter(rows, term, status)
    case None => None
    case Some(kept) => Some(CsvText(kept))
  }

  /** No cell of the row holds a line break. */
  predicate SingleLine(row: JsValue)
    requires !Nullish(row)
  {
    forall c :: 0 <= c < |Columns| ==> '\n' !in CellText(Read(row, Columns[c].key))
  }

  /** No cell of the row holds a comma. */
  predicate CommaFree(row: JsValue)
    requires !Nullish(row)
  {
    forall c :: 0 <= c < |Columns| ==> ',' !in CellText(Read(row, Columns[c].key))
  }

  lemma RecordIsSingleLine(row: JsValue)
    requires !Nullish(row) && SingleLine(row)
    ensures '\n' !in CsvRecord(row)
  {
    var fs := CsvFields(row);
    forall i | 0 <= i < |fs| ensures '\n' !in fs[i] {
      assert '\n' !in CellText(Read(row, Columns[i].key));
    }
    Text.JoinChars(fs, ",", '\n');
  }

  /** A record whose cells hold no comma splits back into its 24 fields. */
  lemma RecordFields(row: JsValue)
    requires !Nullish(row) && CommaFree(row)
    ensures Text.Split(CsvRecord(row), ',') == CsvFields(row)
    ensures |Text.Split(CsvRecord(row), ',')| == 24
  {
    var fs := CsvFields(row);
    forall i | 0 <= i < |fs| ensures ',' !in fs[i] {
      assert ',' !in CellText(Read(row, Columns[i].key));
    }
    Text.SplitJoin(fs, ',');
  }

  /** After the header line, the exported text has exactly one line per row,
      in order, as long as no cell holds a line break. */
  lemma CsvLines(rows: seq<JsValue>)
    requires forall i :: 0 <= i < |rows| ==> !Nullish(rows[i]) && SingleLine(rows[i])
    ensures Text.Split(CsvText(rows), '\n') ==
              Text.Split(HeaderLine(), '\n') + seq(|rows|, i requires 0 <= i < |rows| => CsvRecord(rows[i]))
    ensures |Text.Split(CsvText(rows), '\n')| == |Text.Split(HeaderLine(), '\n')| + |rows|
  {
    var records := seq(|rows|, i requires 0 <= i < |rows| => CsvRecord(rows[i]));
    forall i | 0 <= i < |records| ensures '\n' !in records[i] {
      RecordIsSingleLine(rows[i]);
    }
    Text.SplitJoinAfter(HeaderLine(), records, '\n');
  }

  /** Unquoted fields are not protected at all: a row with `consignmentId`
      "a,b" and status "c" and a row with "a" and "b,c", alike in every other
      column, export the same record. */
  lemma RecordsCollideOnCommas(a: JsValue, b: JsValue)
    requires !Nullish(a) && !Nullish(b)
    requires Read(a, "consignmentId") == Str("a,b") && Read(a, "consignmentStatus") == Str("c")
    requires Read(b, "consignmentId") == Str("a") && Read(b, "consignmentStatus") == Str("b,c")
    requires forall i :: 2 <= i < |Columns| ==> Read(a, Columns[i].key) == Read(b, Columns[i].key)
    ensures a != b
    ensures CsvRecord(a) == CsvRecord(b)
  {
    var fa, fb := CsvFields(a), CsvFields(b);
    LeadingFields(a, "a,b", "c");
    LeadingFields(b, "a", "b,c");
    AlikeOutside(a, b, 0, 2);
    JoinSplit(fa, 2);
    JoinSplit(fb, 2);
    CommaPairsAgree();
  }

  /** The id and status fields of a row whose two cells are non-empty
      strings. */
  lemma LeadingFields(row: JsValue, id: string, status: string)
    requires !Nullish(row)
    requires Read(row, "consignmentId") == Str(id) && Read(row, "consignmentStatus") == Str(status)
    requires id != "" && status != ""
    ensures CsvFields(row)[..2] == [id, status]
  {
    assert Columns[0].key == "consignmentId" && Columns[1].key == "consignmentStatus";
  }

  lemma CommaPairsAgree()
    ensures Text.Join(["a,b", "c"], ",") == Text.Join(["a", "b,c"], ",")
  {
    assert ["a,b", "c"][1..] == ["c"] && ["a", "b,c"][1..] == ["b,c"];
    assert Text.Join(["a,b", "c"], ",") == "a,b" + "," + "c";
    assert Text.Join(["a", "b,c"], ",") == "a" + "," + "b,c";
  }

  /** Quoted fields do not escape inner quotes: a sender name `a","b` with
      mobile `"c` and address `d`, and a sender name `a` with mobile `"b"` and
      address `c,"d`, alike in every other column, export the same record. */
  lemma RecordsCollideOnQuotes(a: JsValue, b: JsValue)
    requires !Nullish(a) && !Nullish(b)
    requires Read(a, "senderName") == Str("a\",\"b") && Read(a, "senderMobileNo") == Str("\"c")
    requires Read(a, "senderAddress") == Str("d")
    requires Read(b, "senderName") == Str("a") && Read(b, "senderMobileNo") == Str("\"b\"")
    requires Read(b, "senderAddress") == Str("c,\"d")
    requires forall i :: 0 <= i < |Columns| && (i < 3 || 6 <= i) ==> Read(a, Columns[i].key) == Read(b, Columns[i].key)
    ensures a != b
    ensures CsvRecord(a) == CsvRecord(b)
  {
    var fa, fb := CsvFields(a), CsvFields(b);
    SenderSlice(a, "a\",\"b", "\"c", "d");
    SenderSlice(b, "a", "\"b\"", "c,\"d");
    QuotedTriplesAgree();
    AlikeOutside(a, b, 3, 6);
    JoinAroundMiddle(fa, fb, 3, 6);
  }

  /** Rows alike in every column outside `i..j` have the same fields there. */
  lemma AlikeOutside(a: JsValue, b: JsValue, i: nat, j: nat)
    requires !Nullish(a) && !Nullish(b) && i <= j <= |Columns|
    requires forall k :: 0 <= k < |Columns| && (k < i || j <= k) ==> Read(a, Columns[k].key) == Read(b, Columns[k].key)
    ensures CsvFields(a)[..i] == CsvFields(b)[..i] && CsvFields(a)[j..] == CsvFields(b)[j..]
  {
    var fa, fb := CsvFields(a), CsvFields(b);
    forall k | 0 <= k < |Columns| && (k < i || j <= k) ensures fa[k] == fb[k] {
      SameCell(a, b, Columns[k]);
    }
    SlicesAgree(fa, fb, i, j);
  }

  /** A field depends only on the cell its column reads. */
  lemma SameCell(a: JsValue, b: JsValue, c: Column)
    requires !Nullish(a) && !Nullish(b) && Read(a, c.key) == Read(b, c.key)
    ensures CsvField(a, c) == CsvField(b, c)
  {
  }

  lemma SlicesAgree(fa: seq<string>, fb: seq<string>, i: nat, j: nat)
    requires i <= j <= |fa| == |fb|
    requires forall k :: 0 <= k < |fa| && (k < i || j <= k) ==> fa[k] == fb[k]
    ensures fa[..i] == fb[..i] && fa[j..] == fb[j..]
  {
    assert forall k :: 0 <= k < i ==> fa[..i][k] == fb[..i][k];
    assert forall k :: 0 <= k < |fa| - j ==> fa[j..][k] == fb[j..][k];
  }

  /** The sender fields joined, for a row whose three sender cells are
      non-empty strings. */
  lemma SenderSlice(row: JsValue, name: string, mobile: string, address: string)
    requires !Nullish(row)
    requires Read(row, "senderName") == Str(name) && Read(row, "senderMobileNo") == Str(mobile)
    requires Read(row, "senderAddress") == Str(address)
    requires name != "" && mobile != "" && address != ""
    ensures Text.Join(CsvFields(row)[3..6], ",") == Text.Join(["\"" + name + "\"", mobile, "\"" + address + "\""], ",")
  {
    SenderFields(row, name, mobile, address);
    SliceOfThree(CsvFields(row), 3, "\"" + name + "\"", mobile, "\"" + address + "\"");
  }

  lemma SliceOfThree(fs: seq<string>, i: nat, x: string, y: string, z: string)
    requires i + 3 <= |fs| && fs[i] == x && fs[i + 1] == y && fs[i + 2] == z
    ensures fs[i..i + 3] == [x, y, z]
  {
  }

  /** Two field lists alike outside `i..j` whose middle parts join to the
      same text join to the same text. */
  lemma JoinAroundMiddle(fa: seq<string>, fb: seq<string>, i: nat, j: nat)
    requires 0 < i < j < |fa| == |fb|
    requires fa[..i] == fb[..i] && fa[j..] == fb[j..]
    requires Text.Join(fa[i..j], ",") == Text.Join(fb[i..j], ",")
    ensures Text.Join(fa, ",") == Text.Join(fb, ",")
  {
    JoinSplit(fa, i);
    JoinSplit(fb, i);
    JoinSplit(fa[i..], j - i);
    JoinSplit(fb[i..], j - i);
    assert fa[i..][..j - i] == fa[i..j] && fb[i..][..j - i] == fb[i..j];
    assert fa[i..][j - i..] == fa[j..] && fb[i..][j - i..] == fb[j..];
  }

  /** The sender name, mobile and address fields of a row whose three cells
      are non-empty strings. */
  lemma SenderFields(row: JsValue, name: string, mobile: string, address: string)
    requires !Nullish(row)
    requires Read(row, "senderName") == Str(name) && Read(row, "senderMobileNo") == Str(mobile)
    requires Read(row, "senderAddress") == Str(address)
    requires name != "" && mobile != "" && address != ""
    ensures CsvFields(row)[3] == "\"" + name + "\""
    ensures CsvFields(row)[4] == mobile
    ensures CsvFields(row)[5] == "\"" + address + "\""
  {
    SenderColumns();
    StringField(row, 3, name);
    StringField(row, 4, mobile);
    StringField(row, 5, address);
  }

  lemma SenderColumns()
    ensures Columns[3].key == "senderName" && Columns[3].quoted
    ensures Columns[4].key == "senderMobileNo" && !Columns[4].quoted
    ensures Columns[5].key == "senderAddress" && Columns[5].quoted
  {
  }

  /** The field of a column whose cell is a non-empty string. */
  lemma StringField(row: JsValue, i: nat, s: string)
    requires !Nullish(row) && i < |Columns|
    requires Read(row, Columns[i].key) == Str(s) && s != ""
    ensures CsvFields(row)[i] == if Columns[i].quoted then "\"" + s + "\"" else s
  {
  }

  lemma QuotedTriplesAgree()
    ensures Text.Join(["\"" + "a\",\"b" + "\"", "\"c", "\"" + "d" + "\""], ",") ==
            Text.Join(["\"" + "a" + "\"", "\"b\"", "\"" + "c,\"d" + "\""], ",")
  {
    Join3("\"" + "a\",\"b" + "\"", "\"c", "\"" + "d" + "\"");
    Join3("\"" + "a" + "\"", "\"b\"", "\"" + "c,\"d" + "\"");
    assert ("\"" + "a\",\"b" + "\"") + "," + ("\"c" + "," + ("\"" + "d" + "\"")) == "\"a\",\"b\",\"c,\"d\"";
    assert ("\"" + "a" + "\"") + "," + ("\"b\"" + "," + ("\"" + "c,\"d" + "\"")) == "\"a\",\"b\",\"c,\"d\"";
  }

  lemma Join3(x: string, y: string, z: string)
    ensures Text.Join([x, y, z], ",") == x + "," + (y + "," + z)
  {
    assert [x, y, z][1..] == [y, z];
    assert [y, z][1..] == [z];
    assert Text.Join([z], ",") == z;
    assert Text.Join([y, z], ",") == y + "," + z;
  }

  /** Joining a list is joining its two halves with one separator between. */
  lemma {:induction false} JoinSplit(fs: seq<string>, k: nat)
    requires 0 < k < |fs|
    ensures Text.Join(fs, ",") == Text.Join(fs[..k], ",") + "," + Text.Join(fs[k..], ",")
  {
    if k > 1 {
      JoinSplit(fs[1..], k - 1);
      assert fs[1..][..k - 1] == fs[..k][1..];
      assert fs[1..][k - 1..] == fs[k..];
    }
  }

  // ----- the page -----

  /** `Array.isArray(data) ? data : []` */
  function RowsOf(data: JsValue): (rows: seq<JsValue>)
    ensures data.Arr? ==> rows == data.items
    ensures !data.Arr? ==> rows == []
  {
    if data.Arr? then data.items else []
  }

  /** The three status cells build a CSS class with `?.toLowerCase()`. */
  const StatusCellKeys: seq<string> := ["consignmentStatus", "paymentStatus", "travelerPaymentStatus"]

  /** The cells the table shows as they are (`value || 'N/A'`); the four
      amounts go through `Number(...).toFixed(2)` instead. */
  const PlainCellKeys: seq<string> := [
    "consignmentId", "consignmentStatus", "senderId", "senderName", "senderMobileNo", "senderAddress",
    "paymentStatus", "travelerId", "travelerAcceptanceDate", "travelerName", "travelerMobileNo",
    "travelerAddress", "travelerPaymentStatus", "travelMode", "travelStartDate", "travelEndDate",
    "recepientName", "recepientAddress", "recepientPhoneNo", "receivedDate"]

  /** A value React accepts as a child: anything but a plain object, and an
      array only when each of its items is accepted (React renders the items
      one by one). */
  predicate ReactChild(v: JsValue)
    decreases v
  {
    match v
    case Obj(_) => false
    case Arr(items) => forall i :: 0 <= i < |items| ==> ReactChild(items[i])
    case _ => true
  }

  /** A table row renders: the row can be read, each status cell is a string
      or missing (anything else has no `toLowerCase`), and each cell shown as
      it is holds a value React accepts as a child. */
  predicate RowRenders(row: JsValue) {
    !Nullish(row) &&
    (forall i :: 0 <= i < |StatusCellKeys| ==> Searchable(Read(row, StatusCellKeys[i]))) &&
    (forall i :: 0 <= i < |PlainCellKeys| ==> ReactChild(Read(row, PlainCellKeys[i])))
  }

  predicate TableRenders(rows: seq<JsValue>) {
    forall i :: 0 <= i < |rows| ==> RowRenders(rows[i])
  }

  /** The filter and the table disagree on what a row may hold: a row whose
      id matches the search but whose status is a number is kept by the
      filter, and then breaks the table's status cell. */
  lemma KeptRowBreaksTable()
    ensures var row := Obj(map["consignmentId" := Str("x"), "consignmentStatus" := Num(5.0)]);
            Filter([row], "", AnyStatus) == Some([row]) && !TableRenders([row])
  {
    var row := Obj(map["consignmentId" := Str("x"), "consignmentStatus" := Num(5.0)]);
    Text.IncludesIff(Text.Lower("x"), Text.Lower(""));
    assert SearchKeys[0] == "consignmentId" && Read(row, "consignmentId") == Str("x");
    assert Decide(row, "", AnyStatus) == Keep;
    assert [row][1..] == [] && [row] + [] == [row];
    assert StatusCellKeys[0] == "consignmentStatus" && !RowRenders(row);
  }

  /** An array cell breaks the table as soon as one of its items is a plain
      object, although the cell itself is not one: a row whose sender id is
      `[{}]` is kept by the filter and then breaks the sender id cell. */
  lemma KeptArrayCellBreaksTable()
    ensures var row := Obj(map["consignmentId" := Str("x"), "senderId" := Arr([Obj(map[])])]);
            Filter([row], "", AnyStatus) == Some([row]) && !TableRenders([row])
  {
    var row := Obj(map["consignmentId" := Str("x"), "senderId" := Arr([Obj(map[])])]);
    Text.IncludesIff(Text.Lower("x"), Text.Lower(""));
    assert SearchKeys[0] == "consignmentId" && Read(row, "consignmentId") == Str("x");
    assert Decide(row, "", AnyStatus) == Keep;
    assert [row][1..] == [] && [row] + [] == [row];
    var cell := Read(row, "senderId");
    assert cell == Arr([Obj(map[])]) && cell.items[0] == Obj(map[]) && !ReactChild(cell.items[0]);
    assert PlainCellKeys[2] == "senderId" && !ReactChild(cell);
    assert !RowRenders(row);
  }

  /** What the page renders. */
  datatype View = LoadingView | ErrorView(message: string) | TableView(rows: seq<JsValue>) | RenderThrows

  class ReportPage {
    var consignments: seq<JsValue>
    var loading: bool
    var error: Option<string>
    var searchTerm: string
    var filterStatus: string

    constructor ()
      ensures consignments == [] && loading && error == None
      ensures searchTerm == "" && filterStatus == AnyStatus
    {
      consignments := [];
      loading := true;
      error := None;
      searchTerm := "";
      filterStatus := AnyStatus;
    }

    /** The filtered list is computed on every render, before the loading
        and error screens are chosen, so a throwing filter breaks those
        screens too; the table itself breaks on a row that does not render. */
    function View(): (v: View)
      reads this
      ensures v == RenderThrows <==>
                Filter(consignments, searchTerm, filterStatus).None? ||
                (!loading && (error.None? || error.value == "") &&
                 !TableRenders(Filter(consignments, searchTerm, filterStatus).value))
      ensures v.TableView? ==> !loading && (error.None? || error.value == "")
      ensures v.TableView? ==> v.rows == Filter(consignments, searchTerm, filterStatus).value && TableRenders(v.rows)
      ensures v.ErrorView? ==> !loading && error == Some(v.message) && v.message != ""
    {
      match Filter(consignments, searchTerm, filterStatus)
      case None => RenderThrows
      case Some(kept) =>
        if loading then LoadingView
        else if error.Some? && error.value != "" then ErrorView(error.value)
        else if TableRenders(kept) then TableView(kept)
        else RenderThrows
    }

    /** `fetchConsignmentData`, given what the report request gave back. */
    method FetchConsignmentData(response: Response<JsValue>)
      modifies this
      ensures !loading
      ensures response.Ok? ==> consignments == RowsOf(response.body) && error == None
      ensures response.Failed? ==> consignments == old(consignments) && error == Some(FetchFailedMessage)
      ensures response.Failed? && Filter(consignments, searchTerm, filterStatus).Some? ==> View() == ErrorView(FetchFailedMessage)
      ensures response.Failed? && Filter(consignments, searchTerm, filterStatus).None? ==> View() == RenderThrows
      ensures searchTerm == old(searchTerm) && filterStatus == old(filterStatus)
    {
      loading := true;
      match response {
        case Ok(data) =>
          consignments := RowsOf(data);
          error := None;
        case Failed =>
          error := Some(FetchFailedMessage);
      }
      loading := false;
    }

    method SetSearchTerm(term: string)
      modifies this`searchTerm
      ensures searchTerm == term
    {
      searchTerm := term;
    }

    method SetFilterStatus(status: string)
      modifies this`filterStatus
      ensures filterStatus == status
    {
      filterStatus := status;
    }
  }
}
