/**
 * The pure arithmetic and string helpers of the monitor: halving progress,
 * the time-of-day and uptime splits, the pool API lookup table and the
 * wallet trim used to build pool URLs.
 */
module MonitorMath {
  import opened Unsigned
  import opened ArduinoText

  /** Blocks between two halvings of the Bitcoin block subsidy. */
  const HALVING_BLOCKS: ULong := 210000

  /**
   * `remainingBlocks = (((b / H) + 1) * H) - b`, every step in `unsigned long`.
   */
  function RemainingBlocks(b: ULong): ULong {
    Minus(Wrap((b / HALVING_BLOCKS + 1) * HALVING_BLOCKS), b)
  }

  /** `progressPercent = (H - remainingBlocks) * 100 / H`, every step in `unsigned long`. */
  function ProgressPercent(b: ULong): ULong {
    Wrap(Minus(HALVING_BLOCKS, RemainingBlocks(b)) * 100) / HALVING_BLOCKS
  }

  /**
   * Despite the 32-bit arithmetic, the remaining count is exactly the
   * distance to the next multiple of H (1 .. H), and the percentage is the
   * position within the current halving epoch, 0 .. 99.
   */
  lemma HalvingProgress(b: ULong)
    ensures RemainingBlocks(b) == HALVING_BLOCKS - b % HALVING_BLOCKS
    ensures 1 <= RemainingBlocks(b) <= HALVING_BLOCKS
    ensures ProgressPercent(b) == (b % HALVING_BLOCKS) * 100 / HALVING_BLOCKS
    ensures ProgressPercent(b) <= 99
  {
    var h := HALVING_BLOCKS;
    var q, m := b / h, b % h;
    assert b == q * h + m;
    var next := (q + 1) * h;
    assert next == b + (h - m);
    assert next < 2 * ULONG_MOD;
    if next < ULONG_MOD {
      assert Wrap(next) == next;
    } else {
      assert Wrap(next) == next - ULONG_MOD;
    }
    assert RemainingBlocks(b) == h - m;
    assert Minus(h, h - m) == m;
    assert m * 100 < ULONG_MOD;
  }

  /** The example of a block height of 700000. */
  lemma HalvingAt700000()
    ensures RemainingBlocks(700000) == 140000
    ensures ProgressPercent(700000) == 33
  {
    HalvingProgress(700000);
  }

  datatype ClockTime = ClockTime(hours: nat, minutes: nat, seconds: nat)

  /** The split of `getTime`: `t % 86400 / 3600`, `t % 3600 / 60`, `t % 60`. */
  function TimeOfDay(t: ULong): ClockTime {
    ClockTime(t % 86400 / 3600, t % 3600 / 60, t % 60)
  }

  /** Reducing modulo 86400 keeps the remainders modulo 3600 and 60. */
  lemma DayRemainders(t: nat)
    ensures (t % 86400) % 3600 == t % 3600
    ensures (t % 3600) % 60 == t % 60
  {
    var d := t % 86400;
    assert t == 86400 * (t / 86400) + d;
    Mod3600(t, 24 * (t / 86400) + d / 3600, d % 3600);
    var r := t % 3600;
    assert t == 3600 * (t / 3600) + r;
    Mod60(t, 60 * (t / 3600) + r / 60, r % 60);
  }

  /** Division with remainder by 3600 is unique. */
  lemma Mod3600(t: nat, x: int, r: int)
    requires 0 <= r < 3600 && t == 3600 * x + r
    ensures t % 3600 == r
  {
    assert 3600 * (t / 3600 - x) == r - t % 3600;
  }

  /** Division with remainder by 60 is unique. */
  lemma Mod60(t: nat, x: int, r: int)
    requires 0 <= r < 60 && t == 60 * x + r
    ensures t % 60 == r
  {
    assert 60 * (t / 60 - x) == r - t % 60;
  }

  /** The split is a valid clock reading and recombines to the second of the day. */
  lemma TimeOfDayRecombines(t: ULong)
    ensures TimeOfDay(t).hours < 24 && TimeOfDay(t).minutes < 60 && TimeOfDay(t).seconds < 60
    ensures TimeOfDay(t).hours * 3600 + TimeOfDay(t).minutes * 60 + TimeOfDay(t).seconds == t % 86400
  {
    DayRemainders(t);
    var d := t % 86400;
    assert d == 3600 * (d / 3600) + d % 3600;
    var r := t % 3600;
    assert r == 60 * (r / 60) + r % 60;
  }

  datatype Uptime = Uptime(days: nat, hours: nat, minutes: nat, seconds: nat)

  /** The split of `getMiningData`: seconds, then minutes, then hours of a day, then days. */
  function UptimeSplit(upTime: U64): Uptime {
    var secs := upTime % 60;
    var tm := upTime / 60;
    var mins := tm % 60;
    var tm' := tm / 60;
    Uptime(tm' / 24, tm' % 24, mins, secs)
  }

  /** The split is a valid clock reading and recombines exactly to the uptime. */
  lemma UptimeRecombines(upTime: U64)
    ensures UptimeSplit(upTime).hours < 24 && UptimeSplit(upTime).minutes < 60
    ensures UptimeSplit(upTime).seconds < 60
    ensures var u := UptimeSplit(upTime);
      u.days * 86400 + u.hours * 3600 + u.minutes * 60 + u.seconds == upTime
  {
    var tm := upTime / 60;
    var tm' := tm / 60;
    assert upTime == 60 * tm + upTime % 60;
    assert tm == 60 * tm' + tm % 60;
    assert tm' == 24 * (tm' / 24) + tm' % 24;
  }

  /**
   * `getPoolAPIUrl`: the statistics URL of the configured pool. The address
   * "public-pool.io" and "pool.nerdminers.org" win whatever the port; on
   * port 2018 any other address is a local public-pool instance whose API
   * listens on port 2019; two more pools are known on port 3333; every other
   * configuration falls back to the public default.
   */
  function PoolApiUrl(publicPool: string, address: string, port: int): (url: string)
    ensures address == "public-pool.io" ==> url == "https://public-pool.io:40557/api/client/"
    ensures address == "pool.nerdminers.org" ==> url == "https://pool.nerdminers.org/users/"
    ensures address !in {"public-pool.io", "pool.nerdminers.org"} && port == 2018 ==>
              url == "http://" + address + ":2019/api/client/"
    ensures port == 3333 && address == "pool.sethforprivacy.com" ==>
              url == "https://pool.sethforprivacy.com/api/client/"
    ensures port == 3333 && address == "pool.solomining.de" ==>
              url == "https://pool.solomining.de/api/client/"
    ensures (address !in {"public-pool.io", "pool.nerdminers.org"} && port != 2018
             && !(port == 3333 && address in {"pool.sethforprivacy.com", "pool.solomining.de"}))
            ==> url == publicPool
    ensures |publicPool| > 0 && publicPool[|publicPool| - 1] == '/' ==> |url| > 0 && url[|url| - 1] == '/'
  {
    if address == "public-pool.io" then "https://public-pool.io:40557/api/client/"
    else if address == "pool.nerdminers.org" then "https://pool.nerdminers.org/users/"
    else if port == 3333 then
      if address == "pool.sethforprivacy.com" then "https://pool.sethforprivacy.com/api/client/"
      else if address == "pool.solomining.de" then "https://pool.solomining.de/api/client/"
      else publicPool
    else if port == 2018 then "http://" + address + ":2019/api/client/"
    else publicPool
  }

  /**
   * The wallet trim of `getPoolData`: cut at the first '.' (a worker
   * suffix) only when that dot is not the first character. The result is a
   * prefix of the wallet and contains a dot exactly when the wallet starts
   * with one; a wallet without a dot is kept whole.
   */
  function TrimWallet(wallet: string): (r: string)
    ensures |r| <= |wallet| && r == wallet[..|r|]
    ensures '.' in r <==> (|wallet| > 0 && wallet[0] == '.')
    ensures '.' !in wallet ==> r == wallet
    ensures |r| < |wallet| ==> wallet[|r|] == '.'
    ensures |wallet| > 0 && wallet[0] == '.' ==> r == wallet
  {
    var k := IndexOf(wallet, '.');
    if k > 0 then wallet[..k] else wallet
  }
}
