/** The per-IP limiter of the registration endpoint. */
module Limiter {
  import opened Entities
  import opened MemStore

  const CLEANUP_SIZE := 10000

  datatype Window = Window(start: int, n: int)

  datatype Setting = Setting(limit: int, window: int)

  datatype Request = Request(ip: string, now: int)

  // ---------- one request ----------

  predicate Over(cfg: Setting, w: Window, now: int) {
    now - w.start > cfg.window
  }

  /** Drops the windows that are over, but only from a table past the size limit. */
  function Cleaned(cfg: Setting, hits: map<string, Window>, now: int): map<string, Window> {
    if |hits| > CLEANUP_SIZE then map ip | ip in hits && !Over(cfg, hits[ip], now) :: hits[ip] else hits
  }

  /** The decision on a request by a limiter that never cleans up. */
  predicate Admits(cfg: Setting, hits: map<string, Window>, r: Request) {
    r.ip !in hits || Over(cfg, hits[r.ip], r.now) || hits[r.ip].n < cfg.limit
  }

  function Count(cfg: Setting, hits: map<string, Window>, r: Request): map<string, Window> {
    if r.ip !in hits || Over(cfg, hits[r.ip], r.now) then hits[r.ip := Window(r.now, 1)]
    else if hits[r.ip].n >= cfg.limit then hits
    else hits[r.ip := Window(hits[r.ip].start, hits[r.ip].n + 1)]
  }

  class IPLimiter {
    const cfg: Setting
    var hits: map<string, Window>

    constructor (cfg: Setting)
      ensures this.cfg == cfg && hits == map[]
    {
      this.cfg, this.hits := cfg, map[];
    }

    method Allow(ip: string, now: int) returns (ok: bool)
      modifies this`hits
      ensures ok == Admits(cfg, Cleaned(cfg, old(hits), now), Request(ip, now))
      ensures hits == Count(cfg, Cleaned(cfg, old(hits), now), Request(ip, now))
    {
      if |hits| > CLEANUP_SIZE {
        var n;
        hits, n := DeleteMatching(hits, (k: string, w: Window) => Over(cfg, w, now));
      }
      if ip !in hits || now - hits[ip].start > cfg.window {
        hits := hits[ip := Window(now, 1)];
        return true;
      }
      var w := hits[ip];
      if w.n >= cfg.limit {
        return false;
      }
      hits := hits[ip := w.(n := w.n + 1)];
      return true;
    }
  }

  // ---------- sequences of requests ----------

  ghost predicate Ordered(reqs: seq<Request>) {
    forall i, j :: 0 <= i < j < |reqs| ==> reqs[i].now <= reqs[j].now
  }

  /** The decisions of the limiter, in order. */
  function Decisions(cfg: Setting, hits: map<string, Window>, reqs: seq<Request>): (ds: seq<bool>)
    ensures |ds| == |reqs|
    decreases |reqs|
  {
    if reqs == [] then []
    else
      var cleaned := Cleaned(cfg, hits, reqs[0].now);
      [Admits(cfg, cleaned, reqs[0])] + Decisions(cfg, Count(cfg, cleaned, reqs[0]), reqs[1..])
  }

  /** The decisions of a limiter that never cleans up. */
  function PlainDecisions(cfg: Setting, hits: map<string, Window>, reqs: seq<Request>): (ds: seq<bool>)
    ensures |ds| == |reqs|
    decreases |reqs|
  {
    if reqs == [] then []
    else [Admits(cfg, hits, reqs[0])] + PlainDecisions(cfg, Count(cfg, hits, reqs[0]), reqs[1..])
  }

  // ---------- cleaning up is invisible ----------

  /** `hits` lacks nothing of `all` but windows that are over. */
  ghost predicate Trimmed(cfg: Setting, hits: map<string, Window>, all: map<string, Window>, now: int) {
    && (forall ip :: ip in hits ==> ip in all && all[ip] == hits[ip])
    && forall ip :: ip in all && ip !in hits ==> Over(cfg, all[ip], now)
  }

  lemma TrimmedAlike(cfg: Setting, hits: map<string, Window>, all: map<string, Window>, r: Request)
    requires Trimmed(cfg, hits, all, r.now)
    ensures Trimmed(cfg, Cleaned(cfg, hits, r.now), all, r.now)
    ensures Admits(cfg, Cleaned(cfg, hits, r.now), r) == Admits(cfg, all, r)
    ensures Trimmed(cfg, Count(cfg, Cleaned(cfg, hits, r.now), r), Count(cfg, all, r), r.now)
  {
  }

  lemma {:induction false} TrimmedDecisions(cfg: Setting, hits: map<string, Window>, all: map<string, Window>,
      reqs: seq<Request>, since: int)
    requires Trimmed(cfg, hits, all, since) && Ordered(reqs) && (reqs != [] ==> since <= reqs[0].now)
    ensures Decisions(cfg, hits, reqs) == PlainDecisions(cfg, all, reqs)
    decreases |reqs|
  {
    if reqs != [] {
      var r := reqs[0];
      TrimmedAlike(cfg, hits, all, r);
      TrimmedDecisions(cfg, Count(cfg, Cleaned(cfg, hits, r.now), r), Count(cfg, all, r), reqs[1..], r.now);
    }
  }

  /** Over any sequence of requests the limiter decides as if it never cleaned up. */
  lemma CleanupIsInvisible(cfg: Setting, reqs: seq<Request>)
    requires Ordered(reqs)
    ensures Decisions(cfg, map[], reqs) == PlainDecisions(cfg, map[], reqs)
  {
    if reqs != [] {
      TrimmedDecisions(cfg, map[], map[], reqs, reqs[0].now);
    }
  }

  // ---------- the rate ----------

  /** The requests of the address admitted within one window length from `from`. */
  function Admitted(cfg: Setting, reqs: seq<Request>, ds: seq<bool>, ip: string, from: int): nat
    requires |ds| == |reqs|
    decreases |reqs|
  {
    if reqs == [] then 0
    else (if reqs[0].ip == ip && ds[0] && from <= reqs[0].now <= from + cfg.window then 1 else 0)
         + Admitted(cfg, reqs[1..], ds[1..], ip, from)
  }

  /** The most a window lets through: its first request is admitted whatever the limit. */
  function PerWindow(cfg: Setting): int {
    AtLeastOne(cfg.limit)
  }

  /** Every window has counted at least its first request, and none past the limit. */
  predicate WindowsOk(cfg: Setting, hits: map<string, Window>) {
    forall ip :: ip in hits ==> 1 <= hits[ip].n <= PerWindow(cfg)
  }

  /** How many more requests of the address the interval from `from` has room for. */
  function Room(cfg: Setting, hits: map<string, Window>, ip: string, from: int): int {
    if ip !in hits then PerWindow(cfg)
    else if hits[ip].start >= from then PerWindow(cfg) - hits[ip].n
    else 2 * PerWindow(cfg) - hits[ip].n
  }

  /** One request that falls into the interval uses up the room it takes. */
  lemma RoomUsed(cfg: Setting, hits: map<string, Window>, r: Request, ip: string, from: int)
    requires WindowsOk(cfg, hits) && from <= r.now <= from + cfg.window
    ensures WindowsOk(cfg, Count(cfg, hits, r))
    ensures Room(cfg, Count(cfg, hits, r), ip, from) <= Room(cfg, hits, ip, from) - (if r.ip == ip
            && Admits(cfg, hits, r) then 1 else 0)
  {
  }

  lemma {:induction false} NoneLater(cfg: Setting, reqs: seq<Request>, ds: seq<bool>, ip: string, from: int)
    requires |ds| == |reqs| && forall i :: 0 <= i < |reqs| ==> reqs[i].now > from + cfg.window
    ensures Admitted(cfg, reqs, ds, ip, from) == 0
    decreases |reqs|
  {
    if reqs != [] {
      NoneLater(cfg, reqs[1..], ds[1..], ip, from);
    }
  }

  lemma {:induction false} WithinRoom(cfg: Setting, hits: map<string, Window>, reqs: seq<Request>, ip: string,
                                      from: int)
    requires Ordered(reqs) && WindowsOk(cfg, hits) && (reqs != [] ==> reqs[0].now >= from)
    ensures Admitted(cfg, reqs, PlainDecisions(cfg, hits, reqs), ip, from) <= Room(cfg, hits, ip, from)
    decreases |reqs|
  {
    if reqs != [] {
      var r := reqs[0];
      var ds := PlainDecisions(cfg, hits, reqs);
      if r.now <= from + cfg.window {
        RoomUsed(cfg, hits, r, ip, from);
        WithinRoom(cfg, Count(cfg, hits, r), reqs[1..], ip, from);
        assert ds[1..] == PlainDecisions(cfg, Count(cfg, hits, r), reqs[1..]);
      } else {
        assert forall i :: 0 < i < |reqs| ==> reqs[0].now <= reqs[i].now;
        NoneLater(cfg, reqs, ds, ip, from);
      }
    }
  }

  lemma {:induction false} PlainBound(cfg: Setting, hits: map<string, Window>, reqs: seq<Request>, ip: string,
                                      from: int)
    requires Ordered(reqs) && WindowsOk(cfg, hits)
    requires reqs != [] && ip in hits ==> hits[ip].start <= reqs[0].now
    ensures Admitted(cfg, reqs, PlainDecisions(cfg, hits, reqs), ip, from) <= 2 * PerWindow(cfg) - 1
    decreases |reqs|
  {
    if reqs == [] {
    } else if reqs[0].now >= from {
      WithinRoom(cfg, hits, reqs, ip, from);
    } else {
      var r := reqs[0];
      PlainBound(cfg, Count(cfg, hits, r), reqs[1..], ip, from);
      assert PlainDecisions(cfg, hits, reqs)[1..] == PlainDecisions(cfg, Count(cfg, hits, r), reqs[1..]);
    }
  }

  /** In any interval no longer than the window, the limiter admits at most twice the limit,
      less one, of an address - or one, for a limit below one. */
  lemma AdmissionBound(cfg: Setting, reqs: seq<Request>, ip: string, from: int)
    requires Ordered(reqs)
    ensures Admitted(cfg, reqs, Decisions(cfg, map[], reqs), ip, from) <= 2 * PerWindow(cfg) - 1
  {
    CleanupIsInvisible(cfg, reqs);
    PlainBound(cfg, map[], reqs, ip, from);
  }

  // ---------- the bound is reached ----------

  function Burst(ip: string, now: int, k: nat): seq<Request> {
    if k == 0 then [] else [Request(ip, now)] + Burst(ip, now, k - 1)
  }

  /** A burst inside a window is admitted as far as the limit leaves room. */
  lemma {:induction false} BurstAdmitted(cfg: Setting, start: int, n: int, ip: string, now: int, k: nat,
      rest: seq<Request>, from: int)
    requires 1 <= n && n + k <= cfg.limit && now - start <= cfg.window && from <= now <= from + cfg.window
    ensures var reqs, hits := Burst(ip, now, k) + rest, map[ip := Window(start, n)];
            Admitted(cfg, reqs, PlainDecisions(cfg, hits, reqs), ip, from) ==
            k + Admitted(cfg, rest, PlainDecisions(cfg, map[ip := Window(start, n + k)], rest), ip, from)
    decreases k
  {
    var reqs, hits := Burst(ip, now, k) + rest, map[ip := Window(start, n)];
    if k == 0 {
      assert reqs == rest;
    } else {
      assert reqs[0] == Request(ip, now) && reqs[1..] == Burst(ip, now, k - 1) + rest;
      assert Count(cfg, hits, reqs[0]) == map[ip := Window(start, n + 1)];
      assert PlainDecisions(cfg, hits, reqs)[1..] == PlainDecisions(cfg, map[ip := Window(start, n + 1)], reqs[1..]);
      BurstAdmitted(cfg, start, n + 1, ip, now, k - 1, rest, from);
    }
  }

  lemma FirstAdmitted(cfg: Setting, hits: map<string, Window>, ip: string, now: int, rest: seq<Request>, from: int)
    requires hits.Keys <= {ip} && (ip in hits ==> Over(cfg, hits[ip], now))
    ensures var reqs := [Request(ip, now)] + rest;
            Admitted(cfg, reqs, PlainDecisions(cfg, hits, reqs), ip, from) ==
            (if from <= now <= from + cfg.window then 1 else 0)
            + Admitted(cfg, rest, PlainDecisions(cfg, map[ip := Window(now, 1)], rest), ip, from)
  {
    var reqs := [Request(ip, now)] + rest;
    assert reqs[1..] == rest;
    assert Count(cfg, hits, reqs[0]) == map[ip := Window(now, 1)];
    assert PlainDecisions(cfg, hits, reqs)[1..] == PlainDecisions(cfg, map[ip := Window(now, 1)], rest);
  }

  /** A request that opens a window, followed by a burst that fills it. */
  function Filling(ip: string, first: int, now: int, k: nat, rest: seq<Request>): seq<Request> {
    [Request(ip, first)] + (Burst(ip, now, k) + rest)
  }

  lemma FillingAdmitted(cfg: Setting, hits: map<string, Window>, ip: string, first: int, now: int, rest: seq<Request>,
                        from: int)
    requires cfg.limit >= 1 && hits.Keys <= {ip} && (ip in hits ==> Over(cfg, hits[ip], first))
    requires now - first <= cfg.window && from <= now <= from + cfg.window
    ensures var reqs := Filling(ip, first, now, cfg.limit - 1, rest);
            Admitted(cfg, reqs, PlainDecisions(cfg, hits, reqs), ip, from) ==
            (if from <= first <= from + cfg.window then cfg.limit else cfg.limit - 1)
            + Admitted(cfg, rest, PlainDecisions(cfg, map[ip := Window(first, cfg.limit)], rest), ip, from)
  {
    var burst := Burst(ip, now, cfg.limit - 1) + rest;
    assert Filling(ip, first, now, cfg.limit - 1, rest) == [Request(ip, first)] + burst;
    FirstAdmitted(cfg, hits, ip, first, burst, from);
    BurstAdmitted(cfg, first, 1, ip, now, cfg.limit - 1, rest, from);
  }

  /** For every limit and window there are requests that reach the bound: one opens a window,
      the rest of its room is used at its end, and a whole new window's right after. */
  lemma BoundReached(cfg: Setting, ip: string)
    requires cfg.limit >= 1 && cfg.window >= 1
    ensures var k := cfg.limit - 1;
            var reqs := Filling(ip, 0, cfg.window, k, Filling(ip, cfg.window + 1, cfg.window + 1, k, []));
            Admitted(cfg, reqs, PlainDecisions(cfg, map[], reqs), ip, cfg.window) == 2 * PerWindow(cfg) - 1
  {
    var w, k := cfg.window, cfg.limit - 1;
    FillingAdmitted(cfg, map[], ip, 0, w, Filling(ip, w + 1, w + 1, k, []), w);
    FillingAdmitted(cfg, map[ip := Window(0, cfg.limit)], ip, w + 1, w + 1, [], w);
  }
}
