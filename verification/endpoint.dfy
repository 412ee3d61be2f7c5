/**
  The prediction endpoint's pure logic: enrich the request, filter the
  candidates, build the payload, hand it to the external predictor (a
  parameter here) and shape its reply into the response, or classify the
  failure.
 */
module Endpoint {
  import opened Wrappers
  import opened Cells
  import opened Seqs
  import opened Tables
  import opened Enrichment
  import opened CandidateFilter
  import opened Gateway

  /** A prediction request as the endpoint receives it. */
  datatype Request = Request(
    pID: string,
    companyCode: string,
    vendorNumber: string,
    vatRate: string,
    isReverseCharge: Flag,
    goods: Flag,
    services: Flag,
    apAr: string)

  /** One entry of the predictor's ranked table, or an entry lacking its `Tax Code` or numeric `prob`. */
  datatype RankedEntry = RankedEntry(taxCode: Cell, prob: real) | MalformedEntry

  /** What the external predictor answers to a payload. */
  datatype PredictorReply =
    | TransportFailure   // no connection, a non-2xx status or an unreadable body: a request exception
    | MalformedReply     // a body lacking `ml_prediction`, `ml_prediction_proba` or `ml_prediction_proba_df`,
                         // or whose table is not a list or whose score is not a number (KeyError, TypeError)
    | Prediction(mlPrediction: Cell, mlPredictionProba: real, ranked: seq<RankedEntry>)

  /** A row of the probability table in the response. */
  datatype ProbabilityRow = ProbabilityRow(taxCode: Cell, prob: real)

  /** The response body of a successful prediction. */
  datatype Response = Response(
    reportingName: Option<Cell>,
    vendorName: Cell,
    taxCodeTableColumns: seq<string>,
    filteredTaxCodes: seq<DescriptionRow>,
    predictedTaxCode: Cell,
    confidenceScore: real,
    probsTableColumns: seq<string>,
    taxCodePredictionProbabilities: seq<ProbabilityRow>)

  /** The endpoint's result: the whole response, or an HTTP error and nothing else. */
  datatype Outcome = Ok(response: Response) | HttpError(status: int, detail: string)

  const ExternalServiceError: string := "Error in external service request"
  const InternalServerError: string := "Internal server error"
  const ProbsTableColumns: seq<string> := ["Tax Code", "Probability"]

  /**
    A looked-up name the JSON response can carry. The response is rendered
    with NaN refused and without an encoder for the numpy integers and
    booleans a table cell holds, so only a text cell renders.
   */
  predicate RenderableName(c: Cell) {
    c.Text?
  }

  /** The parsed query's company name (absent renders as null) and vendor name both render. */
  predicate RenderableNames(q: ParsedQuery) {
    (q.reportingName.None? || RenderableName(q.reportingName.value)) && RenderableName(q.vendorName)
  }

  /** How many ranked entries the response keeps. */
  const TopCount: nat := 5

  /**
    The first `TopCount` entries of the ranked table, in the predictor's
    order; None when one of them is malformed. Entries beyond the slice are
    never read.
   */
  function TopProbabilities(ranked: seq<RankedEntry>): (r: Option<seq<ProbabilityRow>>)
    ensures r.Some? <==> forall k | 0 <= k < Min(TopCount, |ranked|) :: ranked[k].RankedEntry?
    ensures r.Some? ==>
      && |r.value| == Min(TopCount, |ranked|)
      && forall k | 0 <= k < |r.value| :: r.value[k] == ProbabilityRow(ranked[k].taxCode, ranked[k].prob)
  {
    var top := Take(ranked, TopCount);
    if forall k | 0 <= k < |top| :: top[k].RankedEntry? then
      Some(seq(|top|, k requires 0 <= k < |top| && top[k].RankedEntry? => ProbabilityRow(top[k].taxCode, top[k].prob)))
    else
      None
  }

  /** Entries after the first five, malformed or not, do not change the probability table. */
  lemma TopProbabilitiesIgnoresTail(ranked: seq<RankedEntry>, extra: seq<RankedEntry>)
    requires |ranked| >= TopCount
    ensures TopProbabilities(ranked + extra) == TopProbabilities(ranked)
  {
    assert Take(ranked + extra, TopCount) == Take(ranked, TopCount);
  }

  /** A table of at most five well-formed entries is kept whole. */
  lemma ShortTablesAreKeptWhole(ranked: seq<RankedEntry>)
    requires |ranked| <= TopCount
    requires forall k | 0 <= k < |ranked| :: ranked[k].RankedEntry?
    ensures TopProbabilities(ranked).Some?
    ensures |TopProbabilities(ranked).value| == |ranked|
  {
  }

  /** The enriched record for a request. */
  function ParseRequest(data: ReferenceData, req: Request): ParsedQuery {
    QueryParser(data, req.companyCode, req.vendorNumber, req.isReverseCharge, req.goods, req.services, req.vatRate, req.apAr)
  }

  /**
    The payload sent to the predictor for a request: its candidate list is the
    `Tax code` column of the filtered descriptions, in order, duplicates kept.
   */
  function PredictionPayload(data: ReferenceData, req: Request): (r: Result<Payload, FrameError>)
    ensures r.Success? ==>
      r.value.filteredTaxCodes == TaxCodeColumn(FilteredTaxCodeDescriptions(data, ParseRequest(data, req)))
    ensures r.Success? <==>
      GetDataFrameForPrediction(data.config, ParseRequest(data, req)).Success? && |data.config.featureNames| > 0
  {
    var q := ParseRequest(data, req);
    var filtered := FilteredTaxCodeDescriptions(data, q);
    CreatePayload(data.config, q, TaxCodeColumn(filtered))
  }

  /**
    The response shaping and failure classification once the parsed query,
    the filtered descriptions and the payload are known. Rendering the
    response is the last step, so a name it cannot render fails only after
    the predictor has answered.
   */
  function AssembleOutcome(
    q: ParsedQuery,
    columns: seq<string>,
    filtered: seq<DescriptionRow>,
    payload: Result<Payload, FrameError>,
    predictor: Payload -> PredictorReply): (r: Outcome)
    ensures r.HttpError? ==> r.status == 500 && r.detail in [ExternalServiceError, InternalServerError]
    ensures r.HttpError? && r.detail == ExternalServiceError <==>
      payload.Success? && predictor(payload.value).TransportFailure?
    ensures payload.Failure? ==> r == HttpError(500, InternalServerError)
    ensures r.Ok? <==>
      && payload.Success?
      && predictor(payload.value).Prediction?
      && (forall k | 0 <= k < Min(TopCount, |predictor(payload.value).ranked|) :: predictor(payload.value).ranked[k].RankedEntry?)
      && RenderableNames(q)
    ensures r.Ok? ==>
      && var reply := predictor(payload.value);
      && r.response.reportingName == q.reportingName
      && r.response.vendorName == q.vendorName
      && r.response.taxCodeTableColumns == columns
      && r.response.filteredTaxCodes == filtered
      && r.response.predictedTaxCode == reply.mlPrediction
      && r.response.confidenceScore == reply.mlPredictionProba
      && r.response.probsTableColumns == ["Tax Code", "Probability"]
      && |r.response.taxCodePredictionProbabilities| == Min(TopCount, |reply.ranked|)
      && forall k | 0 <= k < |r.response.taxCodePredictionProbabilities| ::
           && r.response.taxCodePredictionProbabilities[k].taxCode == reply.ranked[k].taxCode
           && r.response.taxCodePredictionProbabilities[k].prob == reply.ranked[k].prob
  {
    match payload
    case Failure(_) => HttpError(500, InternalServerError)
    case Success(body) =>
      match predictor(body)
      case TransportFailure => HttpError(500, ExternalServiceError)
      case MalformedReply => HttpError(500, InternalServerError)
      case Prediction(prediction, proba, ranked) =>
        match TopProbabilities(ranked)
        case None => HttpError(500, InternalServerError)
        case Some(top) =>
          if !RenderableNames(q) then HttpError(500, InternalServerError)
          else Ok(Response(
            reportingName := q.reportingName,
            vendorName := q.vendorName,
            taxCodeTableColumns := columns,
            filteredTaxCodes := filtered,
            predictedTaxCode := prediction,
            confidenceScore := proba,
            probsTableColumns := ProbsTableColumns,
            taxCodePredictionProbabilities := top))
  }

  /**
    The prediction endpoint. A request either yields the full response or
    fails with status 500: "Error in external service request" when the call
    to the predictor fails, "Internal server error" for any other fault
    (an unusable or empty categorical configuration, a malformed reply, a
    looked-up name the response cannot render).
   */
  function GetTaxCodePrediction(data: ReferenceData, req: Request, predictor: Payload -> PredictorReply): (r: Outcome)
    ensures r.HttpError? ==> r.status == 500
    ensures r.HttpError? && r.detail == ExternalServiceError <==>
      PredictionPayload(data, req).Success? && predictor(PredictionPayload(data, req).value).TransportFailure?
    ensures GetDataFrameForPrediction(data.config, ParseRequest(data, req)).Failure? || |data.config.featureNames| == 0 ==>
              r == HttpError(500, InternalServerError)
    ensures !RenderableNames(ParseRequest(data, req)) ==> r.HttpError?
    ensures PredictionPayload(data, req).Success? && predictor(PredictionPayload(data, req).value).TransportFailure? ==>
              r == HttpError(500, ExternalServiceError)
    ensures r.Ok? ==>
      && r.response.reportingName == ParseRequest(data, req).reportingName
      && r.response.vendorName == ParseRequest(data, req).vendorName
      && r.response.filteredTaxCodes == FilteredTaxCodeDescriptions(data, ParseRequest(data, req))
      && r.response.taxCodeTableColumns == data.descriptions.columns
      && |r.response.taxCodePredictionProbabilities| <= TopCount
      && PredictionPayload(data, req).Success?
      && var reply := predictor(PredictionPayload(data, req).value);
      && reply.Prediction?
      && r.response.predictedTaxCode == reply.mlPrediction
  {
    var q := ParseRequest(data, req);
    AssembleOutcome(q, data.descriptions.columns, FilteredTaxCodeDescriptions(data, q), PredictionPayload(data, req), predictor)
  }

  /**
    A buildable payload, a prediction whose first five entries are well formed
    and names the response can render always produce a response.
   */
  lemma WellFormedReplySucceeds(data: ReferenceData, req: Request, predictor: Payload -> PredictorReply, payload: Payload)
    requires PredictionPayload(data, req) == Success(payload)
    requires predictor(payload).Prediction?
    requires forall k | 0 <= k < Min(TopCount, |predictor(payload).ranked|) :: predictor(payload).ranked[k].RankedEntry?
    requires RenderableNames(ParseRequest(data, req))
    ensures GetTaxCodePrediction(data, req, predictor).Ok?
  {
  }
}
