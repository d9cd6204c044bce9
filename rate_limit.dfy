/** Fixed-window, per-IP rate limiter over one process-wide client table
    (middlewares/rateLimit.ts).  Every limiter built by `rateLimiter`
    shares the same table; time is a millisecond argument. */
module RateLimit {
  import opened Common

  datatype ClientRecord = ClientRecord(count: int, expiresAt: int)

  /** `{ allowed, retryAfter? }` as returned by a limiter call. */
  datatype Verdict = Verdict(allowed: bool, retryAfter: Option<int>)

  type Table = map<string, ClientRecord>

  /** `Math.ceil(ms / 1000)`. Dafny's `/` floors for a positive divisor. */
  function CeilSeconds(ms: int): (r: int)
    ensures 1000 * (r - 1) < ms <= 1000 * r
  {
    if ms % 1000 == 0 then ms / 1000 else ms / 1000 + 1
  }

  lemma CeilSecondsMonotonic(a: int, b: int)
    requires a <= b
    ensures CeilSeconds(a) <= CeilSeconds(b)
  {
  }

  /** True when the stored record (if any) no longer governs `now`: a fresh
      window starts.  The comparison is strict, so at `now == expiresAt`
      the old record still applies. */
  predicate StartsWindow(clients: Table, ip: string, now: int) {
    ip !in clients || now > clients[ip].expiresAt
  }

  /** One limiter call: the verdict and the table afterwards. */
  function Step(clients: Table, ip: string, now: int, windowMs: int, maxRequests: int): (r: (Verdict, Table))
    ensures r.1.Keys == clients.Keys + {ip}
    ensures forall k :: k in clients && k != ip ==> r.1[k] == clients[k]
    ensures StartsWindow(clients, ip, now) ==>
              r.0 == Verdict(true, None) && r.1[ip] == ClientRecord(1, now + windowMs)
    ensures !StartsWindow(clients, ip, now) ==>
              (r.0.allowed <==> clients[ip].count < maxRequests)
    ensures !StartsWindow(clients, ip, now) && r.0.allowed ==>
              r.0.retryAfter == None &&
              r.1[ip] == ClientRecord(clients[ip].count + 1, clients[ip].expiresAt)
    ensures !r.0.allowed ==>
              r.1 == clients && r.0.retryAfter == Some(CeilSeconds(clients[ip].expiresAt - now))
  {
    if StartsWindow(clients, ip, now) then
      (Verdict(true, None), clients[ip := ClientRecord(1, now + windowMs)])
    else if clients[ip].count < maxRequests then
      (Verdict(true, None), clients[ip := clients[ip].(count := clients[ip].count + 1)])
    else
      (Verdict(false, Some(CeilSeconds(clients[ip].expiresAt - now))), clients)
  }

  /** No record has counted more than `maxRequests` requests. */
  predicate Bounded(clients: Table, maxRequests: int) {
    forall k :: k in clients ==> 1 <= clients[k].count <= maxRequests
  }

  /** Every window ends at most `windowMs` after `now`: what a table looks
      like when time never runs backwards. */
  predicate WithinHorizon(clients: Table, now: int, windowMs: int) {
    forall k :: k in clients ==> clients[k].expiresAt <= now + windowMs
  }

  lemma StepKeepsBounded(clients: Table, ip: string, now: int, windowMs: int, maxRequests: int)
    requires maxRequests >= 1 && Bounded(clients, maxRequests)
    ensures Bounded(Step(clients, ip, now, windowMs, maxRequests).1, maxRequests)
  {
  }

  /** For non-decreasing time a denied caller is told to wait between 0 and
      `ceil(windowMs / 1000)` seconds. */
  lemma {:induction false} RetryAfterInRange(clients: Table, ip: string, earlier: int, now: int, windowMs: int, maxRequests: int)
    requires earlier <= now && WithinHorizon(clients, earlier, windowMs)
    requires !Step(clients, ip, now, windowMs, maxRequests).0.allowed
    ensures var v := Step(clients, ip, now, windowMs, maxRequests).0;
            v.retryAfter.Some? && 0 <= v.retryAfter.value <= CeilSeconds(windowMs)
    ensures WithinHorizon(Step(clients, ip, now, windowMs, maxRequests).1, now, windowMs)
  {
    var e := clients[ip].expiresAt;
    assert 0 <= e - now <= windowMs;
    CeilSecondsMonotonic(0, e - now);
    CeilSecondsMonotonic(e - now, windowMs);
  }

  lemma StepKeepsHorizon(clients: Table, ip: string, earlier: int, now: int, windowMs: int, maxRequests: int)
    requires earlier <= now && WithinHorizon(clients, earlier, windowMs)
    ensures WithinHorizon(Step(clients, ip, now, windowMs, maxRequests).1, now, windowMs)
  {
  }

  /** A run of calls for one IP at the given times: how many were allowed,
      and the table afterwards. */
  function Run(clients: Table, ip: string, times: seq<int>, windowMs: int, maxRequests: int): (r: (nat, Table))
    decreases |times|
  {
    if times == [] then (0, clients)
    else
      var (v, next) := Step(clients, ip, times[0], windowMs, maxRequests);
      var (n, last) := Run(next, ip, times[1..], windowMs, maxRequests);
      (n + (if v.allowed then 1 else 0), last)
  }

  /** Inside one window at most `maxRequests` calls in total are allowed:
      if the window's record has already counted `count` calls, a run of
      calls that all fall inside it adds at most `maxRequests - count`,
      and the window's end does not move. */
  lemma {:induction false} AtMostMaxPerWindow(clients: Table, ip: string, times: seq<int>, windowMs: int, maxRequests: int)
    requires ip in clients && clients[ip].count <= maxRequests
    requires forall i :: 0 <= i < |times| ==> times[i] <= clients[ip].expiresAt
    ensures var (n, last) := Run(clients, ip, times, windowMs, maxRequests);
            clients[ip].count + n <= maxRequests &&
            ip in last && last[ip].expiresAt == clients[ip].expiresAt
    decreases |times|
  {
    if times != [] {
      var (v, next) := Step(clients, ip, times[0], windowMs, maxRequests);
      assert forall i :: 0 <= i < |times[1..]| ==> times[1..][i] == times[i + 1];
      AtMostMaxPerWindow(next, ip, times[1..], windowMs, maxRequests);
    }
  }

  /** The sweep's result: exactly the records whose window has not ended
      before `now`. */
  function Swept(clients: Table, now: int): (r: Table)
    ensures forall k :: k in r <==> k in clients && clients[k].expiresAt >= now
    ensures forall k :: k in r ==> r[k] == clients[k]
  {
    map k | k in clients && clients[k].expiresAt >= now :: clients[k]
  }

  /** The module-level `clients` map. */
  class ClientTable {
    var clients: Table

    constructor ()
      ensures clients == map[]
    {
      clients := map[];
    }

    /** The periodic clean-up body (middlewares/rateLimit.ts:38-43). */
    method Sweep(now: int)
      modifies this
      ensures clients == Swept(old(clients), now)
    {
      ghost var start := clients;
      var pending := clients.Keys;
      while pending != {}
        invariant pending <= clients.Keys <= start.Keys
        invariant forall k :: k in clients ==> clients[k] == start[k]
        invariant forall k :: k in start && k !in pending ==>
                    (k in clients <==> start[k].expiresAt >= now)
        decreases pending
      {
        var ip :| ip in pending;
        if clients[ip].expiresAt < now {
          clients := clients - {ip};
        }
        pending := pending - {ip};
      }
    }
  }

  /** The closure returned by `rateLimiter({ windowMs, maxRequests })`. */
  class Limiter {
    const table: ClientTable
    const windowMs: int
    const maxRequests: int

    constructor (table: ClientTable, windowMs: int, maxRequests: int)
      ensures this.table == table && this.windowMs == windowMs && this.maxRequests == maxRequests
    {
      this.table := table;
      this.windowMs := windowMs;
      this.maxRequests := maxRequests;
    }

    method Call(ip: string, now: int) returns (v: Verdict)
      modifies table
      ensures (v, table.clients) == Step(old(table.clients), ip, now, windowMs, maxRequests)
    {
      var clients := table.clients;
      if ip !in clients || now > clients[ip].expiresAt {
        table.clients := clients[ip := ClientRecord(1, now + windowMs)];
        return Verdict(true, None);
      }
      var client := clients[ip];
      if client.count < maxRequests {
        table.clients := clients[ip := client.(count := client.count + 1)];
        return Verdict(true, None);
      }
      var retryAfter := CeilSeconds(client.expiresAt - now);
      return Verdict(false, Some(retryAfter));
    }
  }
}
