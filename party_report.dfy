/** The sender and traveler reports: two pages that differ only in which
    party they list. Each loads its rows, renders one table row per party
    with defaulted cells, and opens a modal with a party's consignments. */
module PartyReport {
  import opened Wrappers
  import opened Js
  import ConsignmentReport

  /** Which of the two reports. */
  datatype Kind = SenderKind | TravelerKind

  /** The field naming the party, and the field listing its consignments. */
  function IdKey(kind: Kind): string {
    match kind
    case SenderKind => "senderId"
    case TravelerKind => "travelerId"
  }

  function ConsignmentsKey(kind: Kind): string {
    match kind
    case SenderKind => "senderConsignment"
    case TravelerKind => "travelerConsignment"
  }

  /** The `type` the details button passes to the modal. */
  function ModalType(kind: Kind): string {
    match kind
    case SenderKind => "sender"
    case TravelerKind => "traveler"
  }

  function FetchFailedMessage(kind: Kind): string {
    match kind
    case SenderKind => "Failed to fetch sender data"
    case TravelerKind => "Failed to fetch traveler data"
  }

  /** The table's column headers. */
  function Headers(kind: Kind): (h: seq<string>)
    ensures |h| == 11
  {
    var party := if kind == SenderKind then "Sender" else "Traveler";
    [party + " Id", "Name", "Phone No", "Address", "State", "No of Consignment", "Total Amount",
     party + "'s Consignment", "Status of Consignment", "Payment", "Rating"]
  }

  /** The column span of the single row shown when there is no data. */
  const NoDataSpan: int := 11

  /** `String(v || 'N/A')`: a falsy field (missing, null, false, 0 or '')
      reads 'N/A'. */
  function TextCell(v: JsValue): (r: string)
    ensures !Truthy(v) ==> r == "N/A"
    ensures v.Str? && v.s != "" ==> r == v.s
  {
    ToString(Or(v, Str("N/A")))
  }

  /** `Number(v || 0)`: a falsy field reads 0. */
  function CountCell(v: JsValue): (r: JsNumber)
    ensures !Truthy(v) ==> r == Finite(0.0)
    ensures v.Num? ==> r == Finite(v.x)
  {
    ToNumber(Or(v, Num(0.0)))
  }

  /** The consignments cell: a details button counting the consignments
      when the field is a non-empty array, the text 'No consignments'
      otherwise. */
  datatype ConsignmentsCell = DetailsButton(count: nat, consignments: seq<JsValue>) | NoConsignments

  function ConsignmentsOf(v: JsValue): (c: ConsignmentsCell)
    ensures c.DetailsButton? <==> v.Arr? && |v.items| > 0
    ensures c.DetailsButton? ==> c.count == |c.consignments| == |v.items| && c.consignments == v.items
  {
    if v.Arr? && |v.items| > 0 then DetailsButton(|v.items|, v.items) else NoConsignments
  }

  /** `Math.floor(rating || 0)` as the count given to `'★'.repeat`: NaN
      counts as 0, and a negative count is a RangeError (None). */
  function StarCount(rating: JsValue): (r: Option<nat>)
  {
    match ToNumber(Or(rating, Num(0.0)))
    case NaN => Some(0)
    case Finite(x) => if x.Floor < 0 then None else Some(x.Floor)
  }

  /** `'★'.repeat(Math.floor(rating || 0))` */
  function Stars(rating: JsValue): (r: Option<string>)
    ensures r.Some? <==> StarCount(rating).Some?
    ensures r.Some? ==> |r.value| == StarCount(rating).value
    ensures r.Some? ==> forall i :: 0 <= i < |r.value| ==> r.value[i] == '★'
  {
    match StarCount(rating)
    case None => None
    case Some(n) => Some(RepeatStar(n))
  }

  function RepeatStar(n: nat): (r: string)
    ensures |r| == n
    ensures forall i :: 0 <= i < n ==> r[i] == '★'
  {
    if n == 0 then "" else RepeatStar(n - 1) + "★"
  }

  /** One rendered table row. */
  datatype Row = Row(
    id: string, name: string, phone: string, address: string, state: string,
    consignmentCount: JsNumber, totalAmount: JsNumber, consignments: ConsignmentsCell,
    status: string, payment: string, stars: string)

  /** The row of one party; reading a field of a null row, or repeating the
      star a negative number of times, throws (None). */
  function RenderRow(kind: Kind, party: JsValue): (r: Option<Row>)
    ensures r.None? <==> Nullish(party) || StarCount(Read(party, "averageRating")).None?
  {
    if Nullish(party) then None
    else
      match Stars(Read(party, "averageRating"))
      case None => None
      case Some(stars) =>
        Some(Row(
          TextCell(Read(party, IdKey(kind))), TextCell(Read(party, "name")), TextCell(Read(party, "phoneNo")),
          TextCell(Read(party, "address")), TextCell(Read(party, "state")),
          CountCell(Read(party, "noOfConsignment")), CountCell(Read(party, "totalAmount")),
          ConsignmentsOf(Read(party, ConsignmentsKey(kind))),
          TextCell(Read(party, "statusOfConsignment")), TextCell(Read(party, "payment")), stars))
  }

  /** The table body: one row spanning every column when there are no
      parties, otherwise one row per party. */
  datatype Body = NoDataRow(span: int) | Rows(rows: seq<Row>)

  function RenderRows(kind: Kind, parties: seq<JsValue>): (r: Option<seq<Row>>)
    ensures r.Some? ==> |r.value| == |parties|
    ensures r.Some? ==> forall i :: 0 <= i < |parties| ==> RenderRow(kind, parties[i]) == Some(r.value[i])
  {
    if parties == [] then Some([])
    else
      match RenderRow(kind, parties[0])
      case None => None
      case Some(row) =>
        match RenderRows(kind, parties[1..])
        case None => None
        case Some(rest) => Some([row] + rest)
  }

  function RenderBody(kind: Kind, parties: seq<JsValue>): (r: Option<Body>)
    ensures parties == [] ==> r == Some(NoDataRow(NoDataSpan))
    ensures parties != [] && r.Some? ==> r.value.Rows? && |r.value.rows| == |parties|
  {
    if |parties| == 0 then Some(NoDataRow(NoDataSpan))
    else
      match RenderRows(kind, parties)
      case None => None
      case Some(rows) => Some(Rows(rows))
  }

  /** The no-data row spans exactly the table's columns. */
  lemma NoDataSpansAllColumns(kind: Kind)
    ensures RenderBody(kind, []).value.span == |Headers(kind)|
  {
  }

  /** Rendering throws exactly when some party is null or undefined, or has
      a rating whose floor is negative. */
  lemma {:induction false} RenderRowsThrowsIff(kind: Kind, parties: seq<JsValue>)
    ensures RenderRows(kind, parties).None? <==> exists i :: 0 <= i < |parties| && RenderRow(kind, parties[i]).None?
  {
    if parties != [] {
      RenderRowsThrowsIff(kind, parties[1..]);
      assert forall i :: 1 <= i < |parties| ==> parties[i] == parties[1..][i - 1];
    }
  }

  /** A rating that is a number of zero or more shows as many stars as its
      whole part. */
  lemma StarsOfRating(x: real)
    requires x >= 0.0
    ensures Stars(Num(x)).Some?
    ensures var n := |Stars(Num(x)).value|; n as real <= x < n as real + 1.0
  {
  }

  /** A missing, null or zero rating shows no stars. */
  lemma NoRatingNoStars(rating: JsValue)
    requires !Truthy(rating)
    ensures Stars(rating) == Some("")
  {
  }

  /** A negative rating makes the whole table throw. */
  lemma NegativeRatingThrows(kind: Kind, party: JsValue, x: real)
    requires party.Obj? && "averageRating" in party.props && party.props["averageRating"] == Num(x)
    requires x < 0.0
    ensures RenderRow(kind, party).None?
    ensures RenderRows(kind, [party]).None?
  {
    assert Read(party, "averageRating") == Num(x);
  }

  /** The fields both reports read under the same name. */
  const SharedKeys: seq<string> :=
    ["name", "phoneNo", "address", "state", "noOfConsignment", "totalAmount",
     "statusOfConsignment", "payment", "averageRating"]

  /** The two reports render the same row for records that agree on the
      shared fields and carry the same values in their own id and
      consignment fields. */
  lemma KindsAgree(sender: JsValue, traveler: JsValue)
    requires !Nullish(sender) && !Nullish(traveler)
    requires forall i :: 0 <= i < |SharedKeys| ==> Read(sender, SharedKeys[i]) == Read(traveler, SharedKeys[i])
    requires Read(sender, "senderId") == Read(traveler, "travelerId")
    requires Read(sender, "senderConsignment") == Read(traveler, "travelerConsignment")
    ensures RenderRow(SenderKind, sender) == RenderRow(TravelerKind, traveler)
  {
    assert Read(sender, SharedKeys[0]) == Read(traveler, SharedKeys[0]);
    assert Read(sender, SharedKeys[1]) == Read(traveler, SharedKeys[1]);
    assert Read(sender, SharedKeys[2]) == Read(traveler, SharedKeys[2]);
    assert Read(sender, SharedKeys[3]) == Read(traveler, SharedKeys[3]);
    assert Read(sender, SharedKeys[4]) == Read(traveler, SharedKeys[4]);
    assert Read(sender, SharedKeys[5]) == Read(traveler, SharedKeys[5]);
    assert Read(sender, SharedKeys[6]) == Read(traveler, SharedKeys[6]);
    assert Read(sender, SharedKeys[7]) == Read(traveler, SharedKeys[7]);
    assert Read(sender, SharedKeys[8]) == Read(traveler, SharedKeys[8]);
  }

  /** What the page renders. */
  datatype View = LoadingView | ErrorView(message: string) | TableView(body: Body) | RenderThrows

  class Report {
    const kind: Kind
    var parties: seq<JsValue>
    var loading: bool
    var error: Option<string>
    var showModal: bool
    var selectedConsignments: seq<JsValue>
    var modalType: string

    constructor (kind: Kind)
      ensures this.kind == kind
      ensures parties == [] && loading && error == None
      ensures !showModal && selectedConsignments == [] && modalType == ""
    {
      this.kind := kind;
      parties := [];
      loading := true;
      error := None;
      showModal := false;
      selectedConsignments := [];
      modalType := "";
    }

    function View(): (v: View)
      reads this
      ensures !loading && error == None && parties == [] ==> v == TableView(NoDataRow(|Headers(kind)|))
    {
      if loading then LoadingView
      else if error.Some? && error.value != "" then ErrorView(error.value)
      else
        match RenderBody(kind, parties)
        case None => RenderThrows
        case Some(body) => TableView(body)
    }

    /** The fetch, given what the report request gave back: a payload that
        is not an array is taken as no rows. */
    method Fetch(response: Response<JsValue>)
      modifies this`loading, this`parties, this`error
      ensures !loading
      ensures response.Ok? ==> parties == ConsignmentReport.RowsOf(response.body) && error == None
      ensures response.Ok? && !response.body.Arr? ==> View() == TableView(NoDataRow(NoDataSpan))
      ensures response.Failed? ==> parties == old(parties) && error == Some(FetchFailedMessage(kind))
      ensures response.Failed? ==> View() == ErrorView(FetchFailedMessage(kind))
    {
      loading := true;
      match response {
        case Ok(data) =>
          parties := ConsignmentReport.RowsOf(data);
          error := None;
        case Failed =>
          error := Some(FetchFailedMessage(kind));
      }
      loading := false;
    }

    /** `showConsignmentDetails` */
    method ShowConsignmentDetails(consignments: seq<JsValue>, modalType: string)
      modifies this`selectedConsignments, this`modalType, this`showModal
      ensures selectedConsignments == consignments && this.modalType == modalType && showModal
    {
      selectedConsignments := consignments;
      this.modalType := modalType;
      showModal := true;
    }

    /** The details button of a party's row: the modal lists exactly the
        consignments the button counted. */
    method OpenDetails(party: JsValue)
      requires !Nullish(party)
      requires ConsignmentsOf(Read(party, ConsignmentsKey(kind))).DetailsButton?
      modifies this`selectedConsignments, this`modalType, this`showModal
      ensures showModal && modalType == ModalType(kind)
      ensures |selectedConsignments| == ConsignmentsOf(Read(party, ConsignmentsKey(kind))).count > 0
      ensures selectedConsignments == Read(party, ConsignmentsKey(kind)).items
    {
      ShowConsignmentDetails(Read(party, ConsignmentsKey(kind)).items, ModalType(kind));
    }

    /** `closeModal` */
    method CloseModal()
      modifies this`selectedConsignments, this`modalType, this`showModal
      ensures !showModal && selectedConsignments == [] && modalType == ""
    {
      showModal := false;
      selectedConsignments := [];
      modalType := "";
    }
  }
}
