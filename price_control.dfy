/** The fare configuration page: the nine fare fields shown in the UI, their
    mapping from and back to the backend's fare record, the edit draft and
    what submitting it does. */
module PriceControl {
  import opened Wrappers
  import opened Js

  /** The nine fare fields, in the order the page lists them. */
  datatype FareField =
    | TE | DeliveryFee | Margin | WeightRateTrain | WeightRateAirplane
    | DistanceRateAirplane | DistanceRateTrainBase | DistanceRateTrainMid | DistanceRateTrainHigh

  /** The fare values by field: the `pricing` and `modalInputs` objects,
      which always hold exactly the nine fields (the inputs that edit the
      draft are rendered from its own fields). */
  datatype Fares = Fares(
    te: JsValue, deliveryFee: JsValue, margin: JsValue,
    weightRateTrain: JsValue, weightRateAirplane: JsValue, distanceRateAirplane: JsValue,
    distanceRateTrainBase: JsValue, distanceRateTrainMid: JsValue, distanceRateTrainHigh: JsValue)
  {
    function Get(f: FareField): JsValue {
      match f
      case TE => te
      case DeliveryFee => deliveryFee
      case Margin => margin
      case WeightRateTrain => weightRateTrain
      case WeightRateAirplane => weightRateAirplane
      case DistanceRateAirplane => distanceRateAirplane
      case DistanceRateTrainBase => distanceRateTrainBase
      case DistanceRateTrainMid => distanceRateTrainMid
      case DistanceRateTrainHigh => distanceRateTrainHigh
    }

    /** `{ ...fares, [f]: v }` */
    function Set(f: FareField, v: JsValue): (r: Fares)
      ensures r.Get(f) == v
      ensures forall g :: g != f ==> r.Get(g) == Get(g)
    {
      match f
      case TE => this.(te := v)
      case DeliveryFee => this.(deliveryFee := v)
      case Margin => this.(margin := v)
      case WeightRateTrain => this.(weightRateTrain := v)
      case WeightRateAirplane => this.(weightRateAirplane := v)
      case DistanceRateAirplane => this.(distanceRateAirplane := v)
      case DistanceRateTrainBase => this.(distanceRateTrainBase := v)
      case DistanceRateTrainMid => this.(distanceRateTrainMid := v)
      case DistanceRateTrainHigh => this.(distanceRateTrainHigh := v)
    }
  }

  /** The backend's top-level fare fields and its nested train rates. */
  const BackendKeys: set<string> :=
    {"TE", "deliveryFee", "margin", "weightRateTrain", "weightRateAirplane", "distanceRateAirplane", "distanceRateTrain"}
  const TrainKeys: set<string> := {"base", "mid", "high"}

  const Zero: JsValue := Num(0.0)
  const InitialPricing: Fares := Fares(Zero, Zero, Zero, Zero, Zero, Zero, Zero, Zero, Zero)

  const UpdatedMessage: string := "Pricing updated successfully!"
  const RejectedMessage: string := "Update failed. Please try again."
  const ErrorMessage: string := "Error updating pricing."

  /** The fare record read from the backend as the nine UI fields; reading a
      field of a missing record or of a missing `distanceRateTrain` throws
      (None). */
  function PricingFromConfig(config: JsValue): (r: Option<Fares>)
    ensures r.None? <==> Nullish(config) || Nullish(Read(config, "distanceRateTrain"))
  {
    if Nullish(config) then None
    else
      var train := Read(config, "distanceRateTrain");
      if Nullish(train) then None
      else
        Some(Fares(
          Read(config, "TE"), Read(config, "deliveryFee"), Read(config, "margin"),
          Read(config, "weightRateTrain"), Read(config, "weightRateAirplane"), Read(config, "distanceRateAirplane"),
          Read(train, "base"), Read(train, "mid"), Read(train, "high")))
  }

  datatype TrainRates = TrainRates(base: JsNumber, mid: JsNumber, high: JsNumber)

  /** The update request's payload, each field after `parseFloat`. */
  datatype FarePayload = FarePayload(
    te: JsNumber, deliveryFee: JsNumber, margin: JsNumber,
    weightRateTrain: JsNumber, weightRateAirplane: JsNumber, distanceRateAirplane: JsNumber,
    distanceRateTrain: TrainRates)

  function BuildPayload(draft: Fares): (p: FarePayload)
    ensures forall f :: Sent(p, f) == ParseFloat(draft.Get(f))
  {
    FarePayload(
      ParseFloat(draft.te), ParseFloat(draft.deliveryFee), ParseFloat(draft.margin),
      ParseFloat(draft.weightRateTrain), ParseFloat(draft.weightRateAirplane), ParseFloat(draft.distanceRateAirplane),
      TrainRates(ParseFloat(draft.distanceRateTrainBase), ParseFloat(draft.distanceRateTrainMid),
                 ParseFloat(draft.distanceRateTrainHigh)))
  }

  /** A number in the JSON request body: NaN is sent as null. */
  function NumberJson(n: JsNumber): (v: JsValue)
    ensures n.NaN? ==> v == Null
    ensures n.Finite? ==> v == Num(n.x)
  {
    match n
    case Finite(x) => Num(x)
    case NaN => Null
  }

  /** The request body as the backend receives it. */
  function PayloadJson(p: FarePayload): (json: JsValue)
    ensures json.Obj? && json.props.Keys == BackendKeys
    ensures json.props["distanceRateTrain"].Obj? && json.props["distanceRateTrain"].props.Keys == TrainKeys
  {
    Obj(map[
      "TE" := NumberJson(p.te),
      "deliveryFee" := NumberJson(p.deliveryFee),
      "margin" := NumberJson(p.margin),
      "weightRateTrain" := NumberJson(p.weightRateTrain),
      "weightRateAirplane" := NumberJson(p.weightRateAirplane),
      "distanceRateAirplane" := NumberJson(p.distanceRateAirplane),
      "distanceRateTrain" := Obj(map[
        "base" := NumberJson(p.distanceRateTrain.base),
        "mid" := NumberJson(p.distanceRateTrain.mid),
        "high" := NumberJson(p.distanceRateTrain.high)])])
  }

  /** The payload field that carries a UI field. */
  function Sent(p: FarePayload, f: FareField): JsNumber {
    match f
    case TE => p.te
    case DeliveryFee => p.deliveryFee
    case Margin => p.margin
    case WeightRateTrain => p.weightRateTrain
    case WeightRateAirplane => p.weightRateAirplane
    case DistanceRateAirplane => p.distanceRateAirplane
    case DistanceRateTrainBase => p.distanceRateTrain.base
    case DistanceRateTrainMid => p.distanceRateTrain.mid
    case DistanceRateTrainHigh => p.distanceRateTrain.high
  }

  /** A draft holding a number in each of the nine fields. */
  predicate NumericDraft(draft: Fares) {
    forall f :: draft.Get(f).Num?
  }

  /** A backend record holding exactly the fare fields, all numbers. */
  predicate NumericConfig(config: JsValue) {
    config.Obj? && config.props.Keys == BackendKeys &&
    (forall k :: k in config.props && k != "distanceRateTrain" ==> config.props[k].Num?) &&
    var train := config.props["distanceRateTrain"];
    train.Obj? && train.props.Keys == TrainKeys && forall k :: k in train.props ==> train.props[k].Num?
  }

  /** Submitting a numeric draft and reading the record back gives the draft:
      the submit mapping undoes the fetch mapping. */
  lemma DraftRoundTrip(draft: Fares)
    requires NumericDraft(draft)
    ensures PricingFromConfig(PayloadJson(BuildPayload(draft))) == Some(draft)
  {
    NumbersSentAsTyped(draft);
    ReadBack(BuildPayload(draft), draft);
  }

  /** A request body read back as fares gives the fares each of whose fields
      was sent. */
  lemma ReadBack(p: FarePayload, fares: Fares)
    requires forall f :: NumberJson(Sent(p, f)) == fares.Get(f)
    ensures PricingFromConfig(PayloadJson(p)) == Some(fares)
  {
    assert NumberJson(Sent(p, TE)) == fares.te && NumberJson(Sent(p, DeliveryFee)) == fares.deliveryFee;
    assert NumberJson(Sent(p, Margin)) == fares.margin;
    assert NumberJson(Sent(p, WeightRateTrain)) == fares.weightRateTrain;
    assert NumberJson(Sent(p, WeightRateAirplane)) == fares.weightRateAirplane;
    assert NumberJson(Sent(p, DistanceRateAirplane)) == fares.distanceRateAirplane;
    assert NumberJson(Sent(p, DistanceRateTrainBase)) == fares.distanceRateTrainBase;
    assert NumberJson(Sent(p, DistanceRateTrainMid)) == fares.distanceRateTrainMid;
    assert NumberJson(Sent(p, DistanceRateTrainHigh)) == fares.distanceRateTrainHigh;
  }

  /** Every field of a numeric draft is sent as the number it holds. */
  lemma NumbersSentAsTyped(draft: Fares)
    requires NumericDraft(draft)
    ensures forall f :: NumberJson(Sent(BuildPayload(draft), f)) == draft.Get(f)
  {
    forall f ensures NumberJson(Sent(BuildPayload(draft), f)) == draft.Get(f) {
      assert draft.Get(f).Num?;
    }
  }

  /** Reading a numeric backend record into the nine fields and submitting
      them unchanged sends the same record back: the fetch mapping undoes
      the submit mapping. */
  lemma ConfigRoundTrip(config: JsValue)
    requires NumericConfig(config)
    ensures PricingFromConfig(config).Some?
    ensures PayloadJson(BuildPayload(PricingFromConfig(config).value)) == config
  {
    var sent := PayloadJson(BuildPayload(PricingFromConfig(config).value));
    SentTrainRates(config);
    forall k | k in config.props ensures sent.props[k] == config.props[k] {
      assert k in BackendKeys;
    }
    assert sent.props.Keys == config.props.Keys;
  }

  lemma SentTrainRates(config: JsValue)
    requires NumericConfig(config)
    ensures PricingFromConfig(config).Some?
    ensures PayloadJson(BuildPayload(PricingFromConfig(config).value)).props["distanceRateTrain"] ==
              config.props["distanceRateTrain"]
  {
    var train := config.props["distanceRateTrain"];
    var sentTrain := PayloadJson(BuildPayload(PricingFromConfig(config).value)).props["distanceRateTrain"];
    forall k | k in train.props ensures sentTrain.props[k] == train.props[k] {
      assert k in TrainKeys;
    }
    assert sentTrain.props.Keys == train.props.Keys;
  }

  /** A field typed as a whole number is sent as that number. */
  lemma TypedIntegerSent(draft: Fares, f: FareField, n: int)
    requires draft.Get(f) == Str(NumberToString(n as real))
    ensures Sent(BuildPayload(draft), f) == Finite(n as real)
  {
    IntegerParseFloatRoundTrip(n);
  }

  /** The constraints the browser checks on a fare input (`min="0"
      step="0.01"`): at least 0 and a whole number of hundredths. */
  predicate InputAccepts(x: real) {
    x >= 0.0 && (x * 100.0).Floor as real == x * 100.0
  }

  /** Constraint validation of one fare input (`type="number" min="0"
      step="0.01" required`) showing `v`: a number, or non-blank text that
      reads as one, which the input's constraints accept. Blank text and
      values that are neither numbers nor text leave the input empty, which
      `required` refuses. */
  predicate FieldValid(v: JsValue) {
    match v
    case Num(x) => InputAccepts(x)
    case Str(s) => s != "" && StringToNumber(s).Finite? && InputAccepts(StringToNumber(s).x)
    case _ => false
  }

  /** The browser dispatches the form's `submit` only when every input is
      valid. */
  predicate FormValid(draft: Fares) {
    forall f :: FieldValid(draft.Get(f))
  }

  /** A blank field passes the edit guard but fails `required`, so the form
      is not submitted. Had `handleSubmit` run, it would have sent null for
      that field, and the record read back would hold null there. */
  lemma BlankFieldBlocksSubmit(draft: Fares, f: FareField)
    requires draft.Get(f) == Str("")
    ensures AtLeast(Str(""), 0.0)
    ensures !FieldValid(draft.Get(f)) && !FormValid(draft)
    ensures NumberJson(Sent(BuildPayload(draft), f)) == Null
    ensures PricingFromConfig(PayloadJson(BuildPayload(draft))).Some?
    ensures PricingFromConfig(PayloadJson(BuildPayload(draft))).value.Get(f) == Null
  {
    assert TrimStart("") == "";
    assert ScanDecimal("").digits == false;
    ReadBackField(BuildPayload(draft), f);
  }

  /** On the text of a whole number, the form's validation and the edit
      guard agree: both accept exactly the numbers that are not negative. */
  lemma TypedIntegerValid(n: int)
    ensures FieldValid(Str(NumberToString(n as real))) <==> n >= 0
    ensures FieldValid(Str(NumberToString(n as real))) <==> AtLeast(Str(NumberToString(n as real)), 0.0)
  {
    IntegerTextScan(n);
    IntegerStringRoundTrip(n);
    assert (n as real * 100.0).Floor == n * 100;
  }

  /** Reading a request body back gives, in each field, what was sent for it. */
  lemma ReadBackField(p: FarePayload, f: FareField)
    ensures PricingFromConfig(PayloadJson(p)).Some?
    ensures PricingFromConfig(PayloadJson(p)).value.Get(f) == NumberJson(Sent(p, f))
  {
  }

  /** The edit guard `value >= 0` on typed whole numbers: it lets through
      exactly the ones that are not negative. */
  lemma GuardOnIntegers(n: int)
    ensures AtLeast(Str(NumberToString(n as real)), 0.0) <==> n >= 0
  {
    IntegerStringRoundTrip(n);
  }

  /** `res.data?.success` is truthy. */
  predicate Accepted(data: JsValue) {
    !Nullish(data) && Truthy(Read(data, "success"))
  }

  class Page {
    var pricing: Fares
    var modalInputs: Fares
    var status: string
    var isModalOpen: bool

    constructor ()
      ensures pricing == InitialPricing && modalInputs == InitialPricing
      ensures status == "" && !isModalOpen
    {
      pricing := InitialPricing;
      modalInputs := InitialPricing;
      status := "";
      isModalOpen := false;
    }

    /** `fetchPricing`: the draft is left as it was. */
    method FetchPricing(response: Response<JsValue>)
      modifies this`pricing
      ensures response.Ok? && PricingFromConfig(response.body).Some? ==>
                pricing == PricingFromConfig(response.body).value
      ensures !(response.Ok? && PricingFromConfig(response.body).Some?) ==> pricing == old(pricing)
    {
      if response.Ok? {
        match PricingFromConfig(response.body) {
          case Some(p) => pricing := p;
          case None =>
        }
      }
    }

    /** `handleChange` for the input of field `field`, whose text is `value`:
        the text is kept only when `value >= 0` holds. */
    method HandleChange(field: FareField, value: string)
      modifies this`modalInputs
      ensures AtLeast(Str(value), 0.0) ==> modalInputs.Get(field) == Str(value)
      ensures !AtLeast(Str(value), 0.0) ==> modalInputs == old(modalInputs)
      ensures forall g :: g != field ==> modalInputs.Get(g) == old(modalInputs).Get(g)
    {
      if AtLeast(Str(value), 0.0) {
        modalInputs := modalInputs.Set(field, Str(value));
      }
    }

    /** `handleSubmit`, given the outcome of the update request; it returns
        the request body that was sent. The browser calls it only for a form
        whose inputs are all valid. */
    method HandleSubmit(reply: Response<JsValue>) returns (body: JsValue)
      requires FormValid(modalInputs)
      modifies this`pricing, this`status, this`isModalOpen
      ensures body == PayloadJson(BuildPayload(modalInputs))
      ensures reply.Ok? && Accepted(reply.body) ==>
                pricing == modalInputs && status == UpdatedMessage && !isModalOpen
      ensures reply.Ok? && !Accepted(reply.body) ==>
                pricing == old(pricing) && status == RejectedMessage && isModalOpen == old(isModalOpen)
      ensures reply.Failed? ==>
                pricing == old(pricing) && status == ErrorMessage && isModalOpen == old(isModalOpen)
    {
      body := PayloadJson(BuildPayload(modalInputs));
      match reply {
        case Ok(data) =>
          if Accepted(data) {
            pricing := modalInputs;
            status := UpdatedMessage;
            isModalOpen := false;
          } else {
            status := RejectedMessage;
          }
        case Failed =>
          status := ErrorMessage;
      }
    }

    /** Pressing "Update Pricing": the browser runs `handleSubmit` only when
        every input passes its constraints; otherwise nothing is sent and
        nothing changes. */
    method SubmitForm(reply: Response<JsValue>) returns (sent: Option<JsValue>)
      modifies this`pricing, this`status, this`isModalOpen
      ensures sent.Some? <==> FormValid(modalInputs)
      ensures sent.Some? ==> sent.value == PayloadJson(BuildPayload(modalInputs))
      ensures sent.None? ==> pricing == old(pricing) && status == old(status) && isModalOpen == old(isModalOpen)
      ensures sent.Some? && reply.Ok? && Accepted(reply.body) ==>
                pricing == modalInputs && status == UpdatedMessage && !isModalOpen
      ensures sent.Some? && reply.Ok? && !Accepted(reply.body) ==>
                pricing == old(pricing) && status == RejectedMessage && isModalOpen == old(isModalOpen)
      ensures sent.Some? && reply.Failed? ==>
                pricing == old(pricing) && status == ErrorMessage && isModalOpen == old(isModalOpen)
    {
      if FormValid(modalInputs) {
        var body := HandleSubmit(reply);
        sent := Some(body);
      } else {
        sent := None;
      }
    }

    /** `handleCloseModal`: the draft is reset to the shown pricing. */
    method HandleCloseModal()
      modifies this`isModalOpen, this`modalInputs
      ensures !isModalOpen && modalInputs == pricing
    {
      isModalOpen := false;
      modalInputs := pricing;
    }

    /** The "Edit Pricing" button: it only opens the modal. */
    method OpenModal()
      modifies this`isModalOpen
      ensures isModalOpen
    {
      isModalOpen := true;
    }
  }

  /** Opening the editor right after the fares have loaded shows the initial
      zeros, not the loaded fares: the draft is only copied from the pricing
      when the modal is closed. */
  method OpenAfterFetch(config: JsValue) returns (shown: Fares, draft: Fares)
    requires PricingFromConfig(config).Some?
    ensures shown == PricingFromConfig(config).value
    ensures draft == InitialPricing
  {
    var page := new Page();
    page.FetchPricing(Ok(config));
    page.OpenModal();
    shown := page.pricing;
    draft := page.modalInputs;
  }
}
