/**
 * The asynchronous data-refresh pipeline of the monitor, run sequentially: a
 * bounded FIFO of HTTP requests, four refresh timers whose getters decide
 * when to enqueue, the shared cache, and one step of the fetch worker. The
 * FreeRTOS queue, task and mutex become the fields of one object; WiFi
 * status, `millis()` and the HTTP result are inputs of each call.
 */
module FetchPipeline {
  import opened Wrappers
  import opened Unsigned
  import opened ArduinoText
  import opened Json
  import opened Processors
  import MonitorMath

  /** `HTTP_QUEUE_SIZE`: requests the queue holds at most. */
  const HTTP_QUEUE_SIZE: nat := 10

  /**
   * The build and user configuration the pipeline reads: the refresh
   * intervals in milliseconds (`UPDATE_*_min * 60 * 1000`), the wallet and
   * pool settings, and the `SCREEN_FEES_ENABLE` / `SCREEN_WORKERS_ENABLE`
   * build flags.
   */
  datatype Config = Config(
    globalIntervalMs: ULong,
    heightIntervalMs: ULong,
    btcIntervalMs: ULong,
    poolIntervalMs: ULong,
    btcWallet: string,
    poolAddress: string,
    poolPort: int,
    screenFeesEnabled: bool,
    screenWorkersEnabled: bool)

  /** `xQueueSend` with no wait: appended at the tail when there is room, dropped otherwise. */
  function Offered(q: seq<HttpRequest>, req: HttpRequest): (r: seq<HttpRequest>)
    ensures |r| == |q| + 1 <==> |q| < HTTP_QUEUE_SIZE
    ensures |r| == |q| <==> |q| >= HTTP_QUEUE_SIZE
    ensures |q| <= HTTP_QUEUE_SIZE ==> |r| <= HTTP_QUEUE_SIZE
    ensures |q| <= |r| && r[..|q|] == q
    ensures |r| > |q| ==> r[|q|] == req
  {
    if |q| < HTTP_QUEUE_SIZE then q + [req] else q
  }

  /** Several enqueue attempts in a row, each result ignored. */
  function OfferAll(q: seq<HttpRequest>, reqs: seq<HttpRequest>): seq<HttpRequest>
    decreases |reqs|
  {
    if reqs == [] then q else OfferAll(Offered(q, reqs[0]), reqs[1..])
  }

  /** Offering one request is one enqueue attempt. */
  lemma OfferAllOne(q: seq<HttpRequest>, a: HttpRequest)
    ensures OfferAll(q, [a]) == Offered(q, a)
  {
    assert [a][1..] == [];
  }

  /** Offering two requests is two enqueue attempts, in order. */
  lemma OfferAllTwo(q: seq<HttpRequest>, a: HttpRequest, b: HttpRequest)
    ensures OfferAll(q, [a, b]) == Offered(Offered(q, a), b)
  {
    assert [a, b][1..] == [b];
    OfferAllOne(Offered(q, a), b);
  }

  /**
   * Whatever is offered, the queue stays within its capacity, keeps its old
   * entries in order at the front, and grows by at most the number offered.
   */
  lemma {:induction false} OfferAllBounded(q: seq<HttpRequest>, reqs: seq<HttpRequest>)
    requires |q| <= HTTP_QUEUE_SIZE
    ensures |OfferAll(q, reqs)| <= HTTP_QUEUE_SIZE
    ensures |q| <= |OfferAll(q, reqs)| <= |q| + |reqs|
    ensures OfferAll(q, reqs)[..|q|] == q
    decreases |reqs|
  {
    if reqs != [] {
      var q1 := Offered(q, reqs[0]);
      OfferAllBounded(q1, reqs[1..]);
      assert OfferAll(q, reqs)[..|q1|][..|q|] == q;
    }
  }

  /** With room for all of them, the offered requests are appended at the tail, in order. */
  lemma {:induction false} OfferAllWithRoom(q: seq<HttpRequest>, reqs: seq<HttpRequest>)
    requires |q| + |reqs| <= HTTP_QUEUE_SIZE
    ensures OfferAll(q, reqs) == q + reqs
    decreases |reqs|
  {
    if reqs != [] {
      OfferAllWithRoom(q + [reqs[0]], reqs[1..]);
      assert q + [reqs[0]] + reqs[1..] == q + reqs;
    }
  }

  /** The refresh condition `mark == 0 || millis() - mark > interval`, in `unsigned long`. */
  predicate Due(mark: ULong, now: ULong, interval: ULong) {
    mark == 0 || Minus(now, mark) > interval
  }

  datatype Refreshed = Refreshed(queue: seq<HttpRequest>, mark: ULong)

  /**
   * The refresh policy shared by the four getters: when the timer is due and
   * WiFi is up, offer the requests and set the mark to now, whether or not
   * the queue took them; otherwise change nothing.
   */
  function Refresh(q: seq<HttpRequest>, mark: ULong, now: ULong, interval: ULong, wifi: bool,
                   reqs: seq<HttpRequest>): (r: Refreshed)
    ensures !wifi || !Due(mark, now, interval) ==> r == Refreshed(q, mark)
    ensures wifi && Due(mark, now, interval) ==> r.mark == now && r.queue == OfferAll(q, reqs)
  {
    if Due(mark, now, interval) && wifi then Refreshed(OfferAll(q, reqs), now) else Refreshed(q, mark)
  }

  /** A due refresh with WiFi and room in the queue appends its requests at the tail, in order. */
  lemma RefreshWithRoom(q: seq<HttpRequest>, mark: ULong, now: ULong, interval: ULong,
                        reqs: seq<HttpRequest>)
    requires Due(mark, now, interval) && |q| + |reqs| <= HTTP_QUEUE_SIZE
    ensures Refresh(q, mark, now, interval, true, reqs) == Refreshed(q + reqs, now)
  {
    OfferAllWithRoom(q, reqs);
  }

  /**
   * The timer moves even when every offered request was dropped: with a full
   * queue a due refresh loses its requests and still waits a whole interval.
   */
  lemma RefreshWithFullQueue(q: seq<HttpRequest>, mark: ULong, now: ULong, interval: ULong,
                             reqs: seq<HttpRequest>)
    requires |q| == HTTP_QUEUE_SIZE && Due(mark, now, interval)
    ensures Refresh(q, mark, now, interval, true, reqs) == Refreshed(q, now)
  {
    var r := OfferAll(q, reqs);
    OfferAllBounded(q, reqs);
    assert r == r[..|q|];
  }

  /**
   * Two calls within one interval issue at most one round of requests: after
   * a refresh at a nonzero `t1`, a call at `t2` no more than `interval`
   * milliseconds later (on the wrapping clock) changes nothing.
   */
  lemma AtMostOneRefreshPerInterval(q: seq<HttpRequest>, mark: ULong, t1: ULong, t2: ULong,
                                    interval: ULong, wifi1: bool, wifi2: bool,
                                    reqs1: seq<HttpRequest>, reqs2: seq<HttpRequest>)
    requires t1 != 0 && Minus(t2, t1) <= interval
    requires wifi1 && Due(mark, t1, interval)
    ensures var r1 := Refresh(q, mark, t1, interval, wifi1, reqs1);
      Refresh(r1.queue, r1.mark, t2, interval, wifi2, reqs2) == r1
  {
  }

  /** A refresh never pushes the queue past its capacity nor reorders what it held. */
  lemma RefreshKeepsQueue(q: seq<HttpRequest>, mark: ULong, now: ULong, interval: ULong, wifi: bool,
                          reqs: seq<HttpRequest>)
    requires |q| <= HTTP_QUEUE_SIZE
    ensures |q| <= |Refresh(q, mark, now, interval, wifi, reqs).queue| <= HTTP_QUEUE_SIZE
    ensures Refresh(q, mark, now, interval, wifi, reqs).queue[..|q|] == q
  {
    OfferAllBounded(q, reqs);
  }

  datatype Timers = Timers(global: ULong, height: ULong, btc: ULong, pool: ULong)

  /**
   * The URL `getPoolData` asks for: the pool API base (the resolved one in a
   * workers-screen build, the public default otherwise) followed by a prefix
   * of the wallet that drops a worker suffix after the first '.', unless the
   * wallet itself starts with '.'.
   */
  function PoolRequestUrl(cfg: Config, ep: Endpoints, poolApiUrl: string): (url: string)
    ensures var base := if cfg.screenWorkersEnabled then poolApiUrl else ep.publicPool;
      && |base| <= |url| <= |base| + |cfg.btcWallet|
      && url[..|base|] == base
      && url[|base|..] == cfg.btcWallet[..|url| - |base|]
      && ('.' in url[|base|..] <==> |cfg.btcWallet| > 0 && cfg.btcWallet[0] == '.')
      && ('.' !in cfg.btcWallet ==> url[|base|..] == cfg.btcWallet)
      && (|url| < |base| + |cfg.btcWallet| ==> cfg.btcWallet[|url| - |base|] == '.')
      && (|cfg.btcWallet| > 0 && cfg.btcWallet[0] == '.' ==> url[|base|..] == cfg.btcWallet)
  {
    (if cfg.screenWorkersEnabled then poolApiUrl else ep.publicPool) + MonitorMath.TrimWallet(cfg.btcWallet)
  }

  /** The text `getBTCprice` returns: `"$%u"` of the cached price. */
  function PriceText(price: ULong): (text: string)
    ensures |text| > 1 && text[0] == '$'
    ensures forall k :: 0 <= k < |text[1..]| ==> IsDigit(text[1..][k])
    ensures DecimalValue(text[1..]) == price
    ensures |text| > 2 ==> text[1] != '0'
    ensures |text| <= 15
  {
    DecimalRoundTrip(price);
    assert Pow10(10) == 10000000000;
    DecimalTextLength(price, 10);
    var text := "$" + DecimalText(price);
    assert text[1..] == DecimalText(price);
    text
  }

  /** The monitor's module-level state. */
  class Monitor {
    const endpoints: Endpoints
    const config: Config
    const fmt: Formatters

    var queue: seq<HttpRequest>
    var mGlobalUpdate: ULong
    var mHeightUpdate: ULong
    var mBTCUpdate: ULong
    var mPoolUpdate: ULong
    var poolAPIUrl: string
    var gData: GlobalData
    var pData: PoolData
    var currentBlock: string
    var bitcoinPrice: ULong

    ghost predicate Valid()
      reads this
    {
      |queue| <= HTTP_QUEUE_SIZE
    }

    function Cached(): Cache
      reads this
    {
      Cache(gData, pData, currentBlock, bitcoinPrice)
    }

    function Marks(): Timers
      reads this
    {
      Timers(mGlobalUpdate, mHeightUpdate, mBTCUpdate, mPoolUpdate)
    }

    /**
     * The initial values of the globals, and the pool API URL that
     * `setup_monitor` resolves in a build with the workers screen. The
     * initial `gData` and `pData` come from their struct definitions.
     */
    constructor (ep: Endpoints, cfg: Config, formatters: Formatters, g0: GlobalData, p0: PoolData)
      ensures Valid()
      ensures endpoints == ep && config == cfg && fmt == formatters
      ensures queue == [] && Marks() == Timers(0, 0, 0, 0)
      ensures Cached() == Cache(g0, p0, "793261", 0)
      ensures poolAPIUrl == if cfg.screenWorkersEnabled
                            then MonitorMath.PoolApiUrl(ep.publicPool, cfg.poolAddress, cfg.poolPort) else ""
    {
      endpoints, config, fmt := ep, cfg, formatters;
      queue := [];
      mGlobalUpdate, mHeightUpdate, mBTCUpdate, mPoolUpdate := 0, 0, 0, 0;
      poolAPIUrl := if cfg.screenWorkersEnabled
                    then MonitorMath.PoolApiUrl(ep.publicPool, cfg.poolAddress, cfg.poolPort) else "";
      gData, pData, currentBlock, bitcoinPrice := g0, p0, "793261", 0;
    }

    /** `queueHttpRequest`: a non-blocking enqueue stamped with `now`, false when the queue is full. */
    method QueueHttpRequest(kind: RequestKind, url: string, now: ULong) returns (ok: bool)
      requires Valid()
      modifies this
      ensures Valid()
      ensures ok <==> |old(queue)| < HTTP_QUEUE_SIZE
      ensures queue == Offered(old(queue), HttpRequest(kind, url, now))
      ensures Marks() == old(Marks()) && Cached() == old(Cached()) && poolAPIUrl == old(poolAPIUrl)
    {
      var req := HttpRequest(kind, url, now);
      if |queue| < HTTP_QUEUE_SIZE {
        queue := queue + [req];
        ok := true;
      } else {
        ok := false;
      }
    }

    /** `updateGlobalData`: may offer the hashrate and then the fees request. */
    method UpdateGlobalData(now: ULong, wifi: bool)
      requires Valid()
      modifies this
      ensures Valid()
      ensures Refreshed(queue, mGlobalUpdate)
           == Refresh(old(queue), old(mGlobalUpdate), now, config.globalIntervalMs, wifi,
                      [HttpRequest(GlobalDataRequest, endpoints.globalHash, now),
                       HttpRequest(GlobalDataRequest, endpoints.fees, now)])
      ensures Marks() == old(Marks()).(global := mGlobalUpdate)
      ensures Cached() == old(Cached()) && poolAPIUrl == old(poolAPIUrl)
    {
      if mGlobalUpdate == 0 || Minus(now, mGlobalUpdate) > config.globalIntervalMs {
        if !wifi {
          return;
        }
        var reqs := [HttpRequest(GlobalDataRequest, endpoints.globalHash, now),
                     HttpRequest(GlobalDataRequest, endpoints.fees, now)];
        var q0 := queue;
        var _ := QueueHttpRequest(GlobalDataRequest, endpoints.globalHash, now);
        var _ := QueueHttpRequest(GlobalDataRequest, endpoints.fees, now);
        OfferAllTwo(q0, reqs[0], reqs[1]);
        mGlobalUpdate := now;
      }
    }

    /** `getBlockHeight`: may offer a block-height request; returns the cached height. */
    method GetBlockHeight(now: ULong, wifi: bool) returns (block: string)
      requires Valid()
      modifies this
      ensures Valid()
      ensures Refreshed(queue, mHeightUpdate)
           == Refresh(old(queue), old(mHeightUpdate), now, config.heightIntervalMs, wifi,
                      [HttpRequest(BlockHeightRequest, endpoints.height, now)])
      ensures Marks() == old(Marks()).(height := mHeightUpdate)
      ensures Cached() == old(Cached()) && poolAPIUrl == old(poolAPIUrl)
      ensures block == currentBlock
    {
      if mHeightUpdate == 0 || Minus(now, mHeightUpdate) > config.heightIntervalMs {
        if !wifi {
          return currentBlock;
        }
        var _ := QueueHttpRequest(BlockHeightRequest, endpoints.height, now);
        OfferAllOne(old(queue), HttpRequest(BlockHeightRequest, endpoints.height, now));
        mHeightUpdate := now;
      }
      block := currentBlock;
    }

    /** `getBTCprice`: may offer a price request; returns "$" and the cached price. */
    method GetBTCprice(now: ULong, wifi: bool) returns (text: string)
      requires Valid()
      modifies this
      ensures Valid()
      ensures Refreshed(queue, mBTCUpdate)
           == Refresh(old(queue), old(mBTCUpdate), now, config.btcIntervalMs, wifi,
                      [HttpRequest(BtcPriceRequest, endpoints.btcPrice, now)])
      ensures Marks() == old(Marks()).(btc := mBTCUpdate)
      ensures Cached() == old(Cached()) && poolAPIUrl == old(poolAPIUrl)
      ensures text == PriceText(bitcoinPrice)
    {
      if mBTCUpdate == 0 || Minus(now, mBTCUpdate) > config.btcIntervalMs {
        if !wifi {
          return PriceText(bitcoinPrice);
        }
        var _ := QueueHttpRequest(BtcPriceRequest, endpoints.btcPrice, now);
        OfferAllOne(old(queue), HttpRequest(BtcPriceRequest, endpoints.btcPrice, now));
        mBTCUpdate := now;
      }
      text := PriceText(bitcoinPrice);
    }

    /** `getPoolData`: may offer a pool request for the trimmed wallet; returns the cached pool data. */
    method GetPoolData(now: ULong, wifi: bool) returns (pool: PoolData)
      requires Valid()
      modifies this
      ensures Valid()
      ensures Refreshed(queue, mPoolUpdate)
           == Refresh(old(queue), old(mPoolUpdate), now, config.poolIntervalMs, wifi,
                      [HttpRequest(PoolDataRequest, PoolRequestUrl(config, endpoints, poolAPIUrl), now)])
      ensures Marks() == old(Marks()).(pool := mPoolUpdate)
      ensures Cached() == old(Cached()) && poolAPIUrl == old(poolAPIUrl)
      ensures pool == pData
    {
      if mPoolUpdate == 0 || Minus(now, mPoolUpdate) > config.poolIntervalMs {
        if !wifi {
          return pData;
        }
        var wallet := config.btcWallet;
        if IndexOf(wallet, '.') > 0 {
          wallet := wallet[..IndexOf(wallet, '.')];
        }
        var poolUrl := if config.screenWorkersEnabled then poolAPIUrl + wallet else endpoints.publicPool + wallet;
        assert poolUrl == PoolRequestUrl(config, endpoints, poolAPIUrl);
        var _ := QueueHttpRequest(PoolDataRequest, poolUrl, now);
        OfferAllOne(old(queue), HttpRequest(PoolDataRequest, poolUrl, now));
        mPoolUpdate := now;
      }
      pool := pData;
    }

    /** `processGlobalDataResponse`. */
    method ProcessGlobalDataResponse(resp: HttpResponse)
      modifies this
      ensures Cached() == old(Cached()).(gData := GlobalDataAfter(old(gData), resp.doc, fmt))
      ensures queue == old(queue) && Marks() == old(Marks()) && poolAPIUrl == old(poolAPIUrl)
    {
      if resp.doc.None? {
        return;
      }
      gData := GlobalDataAfter(gData, resp.doc, fmt);
    }

    /** `processFeesResponse`. */
    method ProcessFeesResponse(resp: HttpResponse)
      modifies this
      ensures Cached() == old(Cached()).(gData := FeesAfter(old(gData), resp.doc, config.screenFeesEnabled))
      ensures queue == old(queue) && Marks() == old(Marks()) && poolAPIUrl == old(poolAPIUrl)
    {
      if resp.doc.None? {
        return;
      }
      gData := FeesAfter(gData, resp.doc, config.screenFeesEnabled);
    }

    /** `processBlockHeightResponse`: the trimmed body, unvalidated. */
    method ProcessBlockHeightResponse(resp: HttpResponse)
      modifies this
      ensures Cached() == old(Cached()).(currentBlock := Trim(resp.payload))
      ensures queue == old(queue) && Marks() == old(Marks()) && poolAPIUrl == old(poolAPIUrl)
    {
      currentBlock := Trim(resp.payload);
    }

    /** `processBTCPriceResponse`. */
    method ProcessBTCPriceResponse(resp: HttpResponse)
      modifies this
      ensures Cached() == old(Cached()).(bitcoinPrice := PriceAfter(old(bitcoinPrice), resp.doc))
      ensures queue == old(queue) && Marks() == old(Marks()) && poolAPIUrl == old(poolAPIUrl)
    {
      match resp.doc {
        case None =>
          return;
        case Some(d) =>
          if "bitcoin" in d && ContainsKey(d["bitcoin"], "usd") {
            bitcoinPrice := AsUInt(Member(d["bitcoin"], "usd"));
          }
      }
    }

    /** `processPoolDataResponse`, summing the workers' hash rates in a loop. */
    method ProcessPoolDataResponse(resp: HttpResponse)
      modifies this
      ensures Cached() == old(Cached()).(pData := PoolDataAfter(old(pData), resp.doc, fmt))
      ensures queue == old(queue) && Marks() == old(Marks()) && poolAPIUrl == old(poolAPIUrl)
    {
      match resp.doc {
        case None =>
          return;
        case Some(d) =>
          if "workersCount" in d {
            pData := pData.(workersCount := AsInt(d["workersCount"]));
          }
          var total := TotalHashRate(Workers(d));
          pData := pData.(workersHash := fmt.suffixText(total));
          if "bestDifficulty" in d {
            pData := pData.(bestDifficulty := fmt.suffixText(AsDouble(d["bestDifficulty"])));
          }
      }
    }

    /**
     * One iteration of `httpFetcherTaskHandler`. With an empty queue the
     * worker stays parked and nothing changes. Otherwise the head request is
     * removed and served: dropped without WiFi, then routed to its processor
     * on HTTP 200 only. The timers are never touched.
     */
    method FetcherStep(wifi: bool, resp: HttpResponse) returns (served: Option<HttpRequest>)
      requires Valid()
      modifies this
      ensures Valid()
      ensures old(queue) == [] ==> served == None && queue == [] && Cached() == old(Cached())
      ensures old(queue) != [] ==>
                && served == Some(old(queue)[0])
                && queue == old(queue)[1..]
                && Cached() == Served(old(Cached()), old(queue)[0], wifi, resp, endpoints, fmt,
                                      config.screenFeesEnabled)
      ensures Marks() == old(Marks()) && poolAPIUrl == old(poolAPIUrl)
    {
      if queue == [] {
        return None;
      }
      var req := queue[0];
      queue := queue[1..];
      served := Some(req);
      if !wifi {
        return;
      }
      if resp.code == HTTP_CODE_OK {
        match req.kind {
          case GlobalDataRequest =>
            if req.url == endpoints.globalHash {
              ProcessGlobalDataResponse(resp);
            } else if req.url == endpoints.fees {
              ProcessFeesResponse(resp);
            }
          case BlockHeightRequest =>
            ProcessBlockHeightResponse(resp);
          case BtcPriceRequest =>
            ProcessBTCPriceResponse(resp);
          case PoolDataRequest =>
            ProcessPoolDataResponse(resp);
        }
      }
    }
  }
}
