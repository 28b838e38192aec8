/**
 * The fetch worker's data: requests, HTTP results, the shared cache, and the
 * response processors that turn a result into cache writes, with the routing
 * that picks a processor for a request. Everything here is a value; the
 * `FetchPipeline.Monitor` class applies these functions to its fields.
 *
 * `String(float)` and `suffix_string` are not part of the model: they are
 * the abstract `Formatters` below. The digit chopping the global-data
 * processor performs on `String(float)`'s text is modelled exactly.
 */
module Processors {
  import opened Wrappers
  import opened Unsigned
  import opened ArduinoText
  import opened Json

  datatype GlobalData = GlobalData(
    globalHash: string,
    difficulty: string,
    halfHourFee: int,
    fastestFee: int,
    hourFee: int,
    economyFee: int,
    minimumFee: int)

  datatype PoolData = PoolData(workersCount: int, workersHash: string, bestDifficulty: string)

  /** The shared cache: `gData`, `pData`, `current_block` and `bitcoin_price`. */
  datatype Cache = Cache(gData: GlobalData, pData: PoolData, currentBlock: string, bitcoinPrice: ULong)

  datatype RequestKind = GlobalDataRequest | BlockHeightRequest | BtcPriceRequest | PoolDataRequest

  datatype HttpRequest = HttpRequest(kind: RequestKind, url: string, timestamp: ULong)

  /**
   * What one HTTP GET produced: the status code, the body, and what
   * ArduinoJson made of the body (`None` for a deserialisation error).
   */
  datatype HttpResponse = HttpResponse(code: int, payload: string, doc: Option<Document>)

  /** The endpoint URLs `getGlobalHash`, `getFees`, `getHeightAPI`, `getBTCAPI`, `getPublicPool`. */
  datatype Endpoints = Endpoints(globalHash: string, fees: string, height: string, btcPrice: string, publicPool: string)

  /** `String(float)` (two decimals) and `suffix_string` of the platform. */
  datatype Formatters = Formatters(floatText: real -> string, suffixText: real -> string)

  datatype Processor =
    | GlobalDataProcessor
    | FeesProcessor
    | BlockHeightProcessor
    | BtcPriceProcessor
    | PoolDataProcessor

  const HTTP_CODE_OK: int := 200

  // ----- processGlobalDataResponse -----

  /** The global hashrate text: the formatted value without its last 21 characters. */
  function HashrateText(t: string): (r: string)
    requires |t| > 21
    ensures r == t[..|t| - 21]
  {
    Substring(t, 0, |t| - 21)
  }

  /**
   * The difficulty text: drop the last 13 characters, then put a '.' before
   * the last two of what is left and append "T". The subtraction of 2 is
   * `unsigned int` arithmetic handed to `substring`.
   */
  function DifficultyText(t: string): string
    requires |t| > 13
  {
    var u := Substring(t, 0, |t| - 13);
    Substring(u, 0, Wrap(|u| - 2)) + "." + Substring(u, Wrap(|u| - 2), |u|) + "T"
  }

  /**
   * For text of at least 15 characters the decimal point lands before the
   * last two kept characters; for exactly 14 the unsigned wrap-around of
   * `length() - 2` makes `substring` keep the one character before the
   * point and nothing after it.
   */
  lemma DifficultyTextShape(t: string)
    requires 13 < |t| < ULONG_MOD
    ensures |t| >= 15 ==> DifficultyText(t) == t[..|t| - 15] + "." + t[|t| - 15..|t| - 13] + "T"
    ensures |t| == 14 ==> DifficultyText(t) == t[..1] + ".T"
  {
    var u := Substring(t, 0, |t| - 13);
    assert u == t[..|t| - 13];
    if |u| >= 2 {
      assert Wrap(|u| - 2) == |u| - 2;
      assert u[..|u| - 2] == t[..|t| - 15];
      assert u[|u| - 2..] == t[|t| - 15..|t| - 13];
    } else {
      assert Wrap(|u| - 2) == ULONG_MOD - 1;
      assert Substring(u, 0, Wrap(|u| - 2)) == u;
      assert Substring(u, Wrap(|u| - 2), |u|) == "";
    }
  }

  /**
   * `processGlobalDataResponse`. A parse error writes nothing, the fees are
   * never written, and a missing key leaves its field alone. The same text
   * buffer carries over from the hashrate to the difficulty, so a document
   * without "currentDifficulty" formats the difficulty from the hashrate's
   * text.
   */
  function GlobalDataAfter(g: GlobalData, doc: Option<Document>, fmt: Formatters): (r: GlobalData)
    ensures doc.None? ==> r == g
    ensures r.(globalHash := g.globalHash, difficulty := g.difficulty) == g
    ensures doc.Some? && "currentHashrate" !in doc.value ==> r.globalHash == g.globalHash
    ensures doc.Some? && "currentHashrate" !in doc.value && "currentDifficulty" !in doc.value ==> r == g
  {
    match doc
    case None => g
    case Some(d) =>
      var hashText := if "currentHashrate" in d then fmt.floatText(AsDouble(d["currentHashrate"])) else "";
      var g1 := if |hashText| > 21 then g.(globalHash := HashrateText(hashText)) else g;
      var diffText := if "currentDifficulty" in d then fmt.floatText(AsDouble(d["currentDifficulty"])) else hashText;
      if |diffText| > 13 then g1.(difficulty := DifficultyText(diffText)) else g1
  }

  /** The carry-over of the shared text buffer, as the code is written. */
  lemma DifficultyFromHashrateText(g: GlobalData, d: Document, fmt: Formatters)
    requires "currentHashrate" in d && "currentDifficulty" !in d
    requires |fmt.floatText(AsDouble(d["currentHashrate"]))| > 13
    ensures GlobalDataAfter(g, Some(d), fmt).difficulty == DifficultyText(fmt.floatText(AsDouble(d["currentHashrate"])))
  {
  }

  // ----- processFeesResponse -----

  /**
   * `processFeesResponse`: "halfHourFee" always, the four other fees only
   * in a build with the fees screen. A parse error or a missing key leaves
   * the field alone; hashrate and difficulty are never written.
   */
  function FeesAfter(g: GlobalData, doc: Option<Document>, feesScreen: bool): (r: GlobalData)
    ensures doc.None? ==> r == g
    ensures r.globalHash == g.globalHash && r.difficulty == g.difficulty
    ensures !feesScreen ==> r == g.(halfHourFee := r.halfHourFee)
    ensures doc.Some? && "halfHourFee" !in doc.value ==> r.halfHourFee == g.halfHourFee
    ensures doc.Some? && "halfHourFee" in doc.value ==> r.halfHourFee == AsInt(doc.value["halfHourFee"])
    ensures doc.Some? && "fastestFee" !in doc.value ==> r.fastestFee == g.fastestFee
    ensures doc.Some? && feesScreen && "fastestFee" in doc.value ==> r.fastestFee == AsInt(doc.value["fastestFee"])
    ensures doc.Some? && "hourFee" !in doc.value ==> r.hourFee == g.hourFee
    ensures doc.Some? && feesScreen && "hourFee" in doc.value ==> r.hourFee == AsInt(doc.value["hourFee"])
    ensures doc.Some? && "economyFee" !in doc.value ==> r.economyFee == g.economyFee
    ensures doc.Some? && feesScreen && "economyFee" in doc.value ==> r.economyFee == AsInt(doc.value["economyFee"])
    ensures doc.Some? && "minimumFee" !in doc.value ==> r.minimumFee == g.minimumFee
    ensures doc.Some? && feesScreen && "minimumFee" in doc.value ==> r.minimumFee == AsInt(doc.value["minimumFee"])
  {
    match doc
    case None => g
    case Some(d) =>
      g.(halfHourFee := if "halfHourFee" in d then AsInt(d["halfHourFee"]) else g.halfHourFee,
         fastestFee := if feesScreen && "fastestFee" in d then AsInt(d["fastestFee"]) else g.fastestFee,
         hourFee := if feesScreen && "hourFee" in d then AsInt(d["hourFee"]) else g.hourFee,
         economyFee := if feesScreen && "economyFee" in d then AsInt(d["economyFee"]) else g.economyFee,
         minimumFee := if feesScreen && "minimumFee" in d then AsInt(d["minimumFee"]) else g.minimumFee)
  }

  // ----- processBTCPriceResponse -----

  /**
   * `processBTCPriceResponse`: the price changes only when the document
   * parsed and holds an object "bitcoin" with a key "usd".
   */
  function PriceAfter(price: ULong, doc: Option<Document>): (r: ULong)
    ensures r != price ==> doc.Some? && "bitcoin" in doc.value && ContainsKey(doc.value["bitcoin"], "usd")
    ensures doc.Some? && "bitcoin" in doc.value && ContainsKey(doc.value["bitcoin"], "usd") ==>
              r == AsUInt(doc.value["bitcoin"].members["usd"])
  {
    match doc
    case None => price
    case Some(d) =>
      if "bitcoin" in d && ContainsKey(d["bitcoin"], "usd") then AsUInt(Member(d["bitcoin"], "usd")) else price
  }

  // ----- processPoolDataResponse -----

  /** `worker["hashRate"].as<double>()`. */
  function WorkerHashRate(worker: Value): real {
    AsDouble(Member(worker, "hashRate"))
  }

  /** The sum of the workers' hash rates, accumulated from the first worker on. */
  function WorkersHashRate(workers: seq<Value>): real {
    if workers == [] then 0.0
    else WorkersHashRate(workers[..|workers| - 1]) + WorkerHashRate(workers[|workers| - 1])
  }

  /** The summing loop of `processPoolDataResponse`. */
  method TotalHashRate(workers: seq<Value>) returns (total: real)
    ensures total == WorkersHashRate(workers)
  {
    total := 0.0;
    var i := 0;
    while i < |workers|
      invariant 0 <= i <= |workers|
      invariant total == WorkersHashRate(workers[..i])
    {
      assert workers[..i + 1][..i] == workers[..i];
      total := total + WorkerHashRate(workers[i]);
      i := i + 1;
    }
    assert workers[..i] == workers;
  }

  /** The hash rates add up independently of how the worker list is split. */
  lemma {:induction false} WorkersHashRateAppend(a: seq<Value>, b: seq<Value>)
    ensures WorkersHashRate(a + b) == WorkersHashRate(a) + WorkersHashRate(b)
  {
    if b != [] {
      var b' := b[..|b| - 1];
      assert (a + b)[..|a + b| - 1] == a + b';
      WorkersHashRateAppend(a, b');
    } else {
      assert a + b == a;
    }
  }

  /** The workers array of a pool document: none when absent or not an array. */
  function Workers(d: Document): seq<Value> {
    if "workers" in d then Elements(d["workers"]) else []
  }

  /**
   * `processPoolDataResponse`. A parse error writes nothing. Otherwise the
   * workers' hash rate is always overwritten (0 without workers); the
   * worker count and best difficulty change only when their key is present.
   */
  function PoolDataAfter(p: PoolData, doc: Option<Document>, fmt: Formatters): (r: PoolData)
    ensures doc.None? ==> r == p
    ensures doc.Some? ==> r.workersHash == fmt.suffixText(WorkersHashRate(Workers(doc.value)))
    ensures doc.Some? && "workers" !in doc.value ==> r.workersHash == fmt.suffixText(0.0)
    ensures doc.Some? && "workersCount" !in doc.value ==> r.workersCount == p.workersCount
    ensures doc.Some? && "bestDifficulty" !in doc.value ==> r.bestDifficulty == p.bestDifficulty
    ensures doc.Some? && "workersCount" in doc.value ==> r.workersCount == AsInt(doc.value["workersCount"])
    ensures doc.Some? && "bestDifficulty" in doc.value ==>
              r.bestDifficulty == fmt.suffixText(AsDouble(doc.value["bestDifficulty"]))
  {
    match doc
    case None => p
    case Some(d) =>
      PoolData(
        if "workersCount" in d then AsInt(d["workersCount"]) else p.workersCount,
        fmt.suffixText(WorkersHashRate(Workers(d))),
        if "bestDifficulty" in d then fmt.suffixText(AsDouble(d["bestDifficulty"])) else p.bestDifficulty)
  }

  // ----- routing in httpFetcherTaskHandler -----

  /** The kind of request each processor serves. */
  function Serves(p: Processor): RequestKind {
    match p
    case GlobalDataProcessor => GlobalDataRequest
    case FeesProcessor => GlobalDataRequest
    case BlockHeightProcessor => BlockHeightRequest
    case BtcPriceProcessor => BtcPriceRequest
    case PoolDataProcessor => PoolDataRequest
  }

  /**
   * The `switch` on the request type. A processor is only ever picked for
   * the kind it serves; only a global-data request can go unprocessed, when
   * its URL is neither `getGlobalHash` nor `getFees`, and between those two
   * the hashrate URL is tested first.
   */
  function ProcessorFor(req: HttpRequest, ep: Endpoints): (p: Option<Processor>)
    ensures p.Some? ==> Serves(p.value) == req.kind
    ensures p.None? <==> req.kind == GlobalDataRequest && req.url != ep.globalHash && req.url != ep.fees
    ensures p == Some(GlobalDataProcessor) <==> req.kind == GlobalDataRequest && req.url == ep.globalHash
    ensures p == Some(FeesProcessor) <==> req.kind == GlobalDataRequest && req.url != ep.globalHash && req.url == ep.fees
  {
    match req.kind
    case GlobalDataRequest =>
      if req.url == ep.globalHash then Some(GlobalDataProcessor)
      else if req.url == ep.fees then Some(FeesProcessor)
      else None
    case BlockHeightRequest => Some(BlockHeightProcessor)
    case BtcPriceRequest => Some(BtcPriceProcessor)
    case PoolDataRequest => Some(PoolDataProcessor)
  }

  /**
   * One processor applied to the cache. Each writes only its own part of the
   * cache, and every processor but the block-height one writes nothing on a
   * parse error; the block height stores the trimmed body unvalidated.
   */
  function Apply(p: Processor, c: Cache, resp: HttpResponse, fmt: Formatters, feesScreen: bool): (r: Cache)
    ensures p != PoolDataProcessor ==> r.pData == c.pData
    ensures p != BlockHeightProcessor ==> r.currentBlock == c.currentBlock
    ensures p != BtcPriceProcessor ==> r.bitcoinPrice == c.bitcoinPrice
    ensures p != GlobalDataProcessor && p != FeesProcessor ==> r.gData == c.gData
    ensures p != BlockHeightProcessor && resp.doc.None? ==> r == c
    ensures p == BlockHeightProcessor ==> r == c.(currentBlock := Trim(resp.payload))
  {
    match p
    case GlobalDataProcessor => c.(gData := GlobalDataAfter(c.gData, resp.doc, fmt))
    case FeesProcessor => c.(gData := FeesAfter(c.gData, resp.doc, feesScreen))
    case BlockHeightProcessor => c.(currentBlock := Trim(resp.payload))
    case BtcPriceProcessor => c.(bitcoinPrice := PriceAfter(c.bitcoinPrice, resp.doc))
    case PoolDataProcessor => c.(pData := PoolDataAfter(c.pData, resp.doc, fmt))
  }

  /**
   * The cache after the worker served one dequeued request: nothing is
   * written without WiFi or without HTTP 200, otherwise exactly the
   * processor `ProcessorFor` picks runs.
   */
  function Served(c: Cache, req: HttpRequest, wifi: bool, resp: HttpResponse, ep: Endpoints,
                  fmt: Formatters, feesScreen: bool): (r: Cache)
    ensures !wifi || resp.code != HTTP_CODE_OK ==> r == c
    ensures ProcessorFor(req, ep).None? ==> r == c
    ensures wifi && resp.code == HTTP_CODE_OK && ProcessorFor(req, ep).Some? ==>
              r == Apply(ProcessorFor(req, ep).value, c, resp, fmt, feesScreen)
  {
    if !wifi || resp.code != HTTP_CODE_OK then c
    else match ProcessorFor(req, ep)
      case None => c
      case Some(p) => Apply(p, c, resp, fmt, feesScreen)
  }

  /** A malformed BTC-price body leaves the price as it was, whatever the status. */
  lemma MalformedPriceKeepsPrice(c: Cache, req: HttpRequest, wifi: bool, resp: HttpResponse, ep: Endpoints,
                                 fmt: Formatters, feesScreen: bool)
    requires req.kind == BtcPriceRequest && resp.doc.None?
    ensures Served(c, req, wifi, resp, ep, fmt, feesScreen) == c
  {
  }

  /** A failed pool fetch (HTTP 404 say) leaves the pool statistics as they were. */
  lemma FailedPoolFetchKeepsPoolData(c: Cache, req: HttpRequest, wifi: bool, resp: HttpResponse, ep: Endpoints,
                                     fmt: Formatters, feesScreen: bool)
    requires resp.code != HTTP_CODE_OK
    ensures Served(c, req, wifi, resp, ep, fmt, feesScreen).pData == c.pData
  {
  }
}
