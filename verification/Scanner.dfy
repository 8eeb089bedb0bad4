/** core/scanner.py, the price cache: a double-checked lock around one shared, time-limited table of prices. */
module PriceCache {
  import opened Prelude

  /** A figure in a reply: left out, a number, or something (such as null) that `float` refuses. */
  datatype Figure = Missing | Number(x: real) | Unusable

  datatype Price = Price(usd: Figure, change24h: Figure)

  type Table = map<string, Price>

  const CACHE_TTL := 30.0

  /** The cache answers for these ids at this time. */
  predicate Fresh(cache: Table, cacheAt: real, ids: set<string>, now: real)
  {
    now - cacheAt < CACHE_TTL && ids <= cache.Keys
  }

  /** What a caller gets out of the table; an id it does not have is simply missing. */
  function Pick(cache: Table, ids: set<string>): (prices: Table)
    ensures prices.Keys == ids * cache.Keys && forall id | id in prices :: prices[id] == cache[id]
  {
    map id | id in ids && id in cache :: cache[id]
  }

  /** The outcome of the HTTP request: an error, a non-200 status or an empty body all count as Nothing. */
  datatype Response = Nothing | Fetched(prices: Table)

  /** The module's globals, and `_fetch_prices` for a caller that meets no other. */
  class Prices {
    var cache: Table
    var cacheAt: real

    constructor ()
      ensures cache == map[] && cacheAt == 0.0
    {
      cache, cacheAt := map[], 0.0;
    }

    method FetchPrices(ids: set<string>, now: real, nowLocked: real, response: Response) returns (prices: Table)
      modifies this
      ensures
        if Fresh(old(cache), old(cacheAt), ids, now) || Fresh(old(cache), old(cacheAt), ids, nowLocked) ||
            response.Nothing? || response.prices == map[]
        then cache == old(cache) && cacheAt == old(cacheAt)
        else cache == old(cache) + response.prices && cacheAt == nowLocked
      ensures prices == Pick(cache, ids)
    {
      if Fresh(cache, cacheAt, ids, now) { return Pick(cache, ids); }
      if Fresh(cache, cacheAt, ids, nowLocked) { return Pick(cache, ids); }
      if response.Fetched? && response.prices != map[] {
        cache := cache + response.prices;
        cacheAt := nowLocked;
      }
      return Pick(cache, ids);
    }
  }

  // ---- Any number of concurrent callers ----

  datatype Caller = Outside | Queued | Fetching(began: real)

  /** A successful refresh: when its fetch began, and whether the cache already covered the ids then. */
  datatype Refresh = Refresh(began: real, covered: bool)

  /** An answer taken from the cache: when, and when the fetches behind each of its prices began. */
  datatype Answer = Answer(at: real, origins: map<string, real>)

  datatype State = State(
    clock: real,
    cache: Table,
    cacheAt: real,
    lock: Option<nat>,
    callers: seq<Caller>,
    origin: map<string, real>,      // for each cached id, when the fetch that supplied it began
    refreshes: seq<Refresh>,
    answers: seq<Answer>)

  datatype Event =
    | Tick(elapsed: real)
    | Arrive                        // a new caller
    | Call(t: nat)                  // the unlocked check
    | Acquire(t: nat)               // the lock is obtained, the check repeated
    | Answered(t: nat, response: Response)

  function Initial(clock: real): State
  {
    State(clock, map[], 0.0, None, [], map[], [], [])
  }

  predicate FreshNow(s: State, ids: set<string>)
  {
    Fresh(s.cache, s.cacheAt, ids, s.clock)
  }

  predicate Enabled(s: State, e: Event)
  {
    match e
    case Tick(elapsed) => elapsed >= 0.0
    case Arrive => true
    case Call(t) => t < |s.callers| && s.callers[t] == Outside
    case Acquire(t) => t < |s.callers| && s.callers[t] == Queued && s.lock.None?
    case Answered(t, _) => t < |s.callers| && s.callers[t].Fetching?
  }

  function ServeFromCache(s: State, ids: set<string>): State
  {
    s.(answers := s.answers + [Answer(s.clock, map id | id in ids && id in s.origin :: s.origin[id])])
  }

  function Step(s: State, ids: set<string>, e: Event): State
    requires Enabled(s, e)
  {
    match e
    case Tick(elapsed) => s.(clock := s.clock + elapsed)
    case Arrive => s.(callers := s.callers + [Outside])
    case Call(t) => if FreshNow(s, ids) then ServeFromCache(s, ids) else s.(callers := s.callers[t := Queued])
    case Acquire(t) =>
      if FreshNow(s, ids) then ServeFromCache(s, ids).(callers := s.callers[t := Outside])
      else s.(callers := s.callers[t := Fetching(s.clock)], lock := Some(t))
    case Answered(t, response) =>
      var out := s.(callers := s.callers[t := Outside], lock := None);
      if response.Nothing? || response.prices == map[] then out
      else
        var began := s.callers[t].began;
        out.(cache := s.cache + response.prices, cacheAt := began,
             origin := s.origin + map id | id in response.prices :: began,
             refreshes := s.refreshes + [Refresh(began, s.refreshes != [] && ids <= s.cache.Keys)])
  }

  ghost predicate IsRun(ids: set<string>, trace: seq<State>, events: seq<Event>)
  {
    && |trace| == |events| + 1 && trace[0] == Initial(trace[0].clock)
    && forall i {:trigger events[i]} | 0 <= i < |events| ::
         Enabled(trace[i], events[i]) && trace[i + 1] == Step(trace[i], ids, events[i])
  }

  /** Only the lock holder fetches, and it does so because the cache would not do. */
  ghost predicate LockOk(s: State, ids: set<string>)
  {
    forall t | 0 <= t < |s.callers| && s.callers[t].Fetching? ::
      && s.lock == Some(t)
      && s.callers[t].began <= s.clock
      && !Fresh(s.cache, s.cacheAt, ids, s.callers[t].began)
      && (s.refreshes != [] ==> s.cacheAt <= s.callers[t].began)
  }

  ghost predicate RefreshesOk(s: State)
  {
    && (s.refreshes == [] ==> s.cache == map[])
    && (s.refreshes != [] ==> s.refreshes[|s.refreshes| - 1].began == s.cacheAt <= s.clock)
    && forall i | 0 < i < |s.refreshes| ::
         && s.refreshes[i - 1].began <= s.refreshes[i].began
         && (s.refreshes[i].covered ==> s.refreshes[i].began - s.refreshes[i - 1].began >= CACHE_TTL)
  }

  ghost predicate Inv(s: State, ids: set<string>)
  {
    LockOk(s, ids) && RefreshesOk(s) && s.origin.Keys == s.cache.Keys
  }

  /** A successful answer is spaced from the one before it if the cache covered the ids. */
  lemma RefreshKeepsOrder(s: State, ids: set<string>, t: nat, s': State)
    requires LockOk(s, ids) && RefreshesOk(s) && t < |s.callers| && s.callers[t].Fetching?
    requires s'.clock == s.clock && s'.cacheAt == s.callers[t].began
    requires s'.refreshes == s.refreshes + [Refresh(s.callers[t].began, s.refreshes != [] && ids <= s.cache.Keys)]
    ensures RefreshesOk(s')
  {}

  lemma AnswerKeepsInv(s: State, ids: set<string>, e: Event)
    requires Inv(s, ids) && Enabled(s, e) && e.Answered?
    ensures Inv(Step(s, ids, e), ids)
    ensures s.cache.Keys <= Step(s, ids, e).cache.Keys
  {
    var s' := Step(s, ids, e);
    assert LockOk(s', ids) by {
      assert forall u | 0 <= u < |s'.callers| && u != e.t :: !s.callers[u].Fetching?;
    }
    if e.response.Fetched? && e.response.prices != map[] {
      RefreshKeepsOrder(s, ids, e.t, s');
      assert s'.origin.Keys == s'.cache.Keys;
    }
  }

  lemma StepKeepsInv(s: State, ids: set<string>, e: Event)
    requires Inv(s, ids) && Enabled(s, e)
    ensures Inv(Step(s, ids, e), ids)
    ensures s.cache.Keys <= Step(s, ids, e).cache.Keys
  {
    if e.Answered? {
      AnswerKeepsInv(s, ids, e);
    }
  }

  lemma {:induction false} RunKeepsInv(ids: set<string>, trace: seq<State>, events: seq<Event>, i: nat)
    requires IsRun(ids, trace, events) && i < |trace|
    ensures Inv(trace[i], ids)
  {
    if i > 0 {
      RunKeepsInv(ids, trace, events, i - 1);
      StepKeepsInv(trace[i - 1], ids, events[i - 1]);
    }
  }

  /** At most one fetch is in flight, at every moment of every interleaving. */
  lemma OneFetchInFlight(ids: set<string>, trace: seq<State>, events: seq<Event>, i: nat, t: nat, u: nat)
    requires IsRun(ids, trace, events) && i < |trace| && t < |trace[i].callers| && u < |trace[i].callers|
    requires trace[i].callers[t].Fetching? && trace[i].callers[u].Fetching?
    ensures t == u
  {
    RunKeepsInv(ids, trace, events, i);
  }

  /** Ids never leave the cache. */
  lemma {:induction false} IdsStay(ids: set<string>, trace: seq<State>, events: seq<Event>, i: nat, j: nat)
    requires IsRun(ids, trace, events) && i <= j < |trace|
    ensures trace[i].cache.Keys <= trace[j].cache.Keys
  {
    if i < j {
      IdsStay(ids, trace, events, i, j - 1);
      RunKeepsInv(ids, trace, events, j - 1);
      StepKeepsInv(trace[j - 1], ids, events[j - 1]);
    }
  }

  /** The table and its age change only by a successful refresh; a fetch that brings nothing changes neither. */
  lemma {:induction false} TableIsOfLastRefresh(ids: set<string>, trace: seq<State>, events: seq<Event>, i: nat, j: nat)
    requires IsRun(ids, trace, events) && i <= j < |trace|
    ensures |trace[i].refreshes| <= |trace[j].refreshes|
    ensures |trace[i].refreshes| == |trace[j].refreshes| ==>
            trace[i].cache == trace[j].cache && trace[i].cacheAt == trace[j].cacheAt
  {
    if i < j {
      TableIsOfLastRefresh(ids, trace, events, i, j - 1);
      assert trace[j] == Step(trace[j - 1], ids, events[j - 1]);
    }
  }

  /**
    Two refreshes less than 30 s apart happen only when a requested id was missing from the cache: the rate
    limit the cache is for holds between all refreshes that found the ids covered.
   */
  lemma RefreshesSpaced(ids: set<string>, trace: seq<State>, events: seq<Event>, i: nat, k: nat)
    requires IsRun(ids, trace, events) && i < |trace| && 0 < k < |trace[i].refreshes|
    ensures
      var a, b := trace[i].refreshes[k - 1], trace[i].refreshes[k];
      a.began <= b.began && (b.covered ==> b.began - a.began >= 30.0)
  {
    RunKeepsInv(ids, trace, events, i);
  }

  /** In step k a response with a price for this id arrives. */
  ghost predicate Brings(events: seq<Event>, k: nat, id: string)
  {
    k < |events| && HasPrice(events[k], id)
  }

  predicate HasPrice(e: Event, id: string)
  {
    e.Answered? && e.response.Fetched? && id in e.response.prices
  }

  lemma CacheStep(s: State, ids: set<string>, e: Event, id: string)
    requires Enabled(s, e)
    ensures
      var s' := Step(s, ids, e);
      if HasPrice(e, id) then id in s'.cache && s'.cache[id] == e.response.prices[id]
      else (id in s'.cache <==> id in s.cache) && (id in s.cache ==> s'.cache[id] == s.cache[id])
  {}

  /** A price in the cache is the one that the last response with a price for its id brought. */
  lemma {:induction false} CachedIsLatest(ids: set<string>, trace: seq<State>, events: seq<Event>, i: nat, id: string)
    returns (k: nat)
    requires IsRun(ids, trace, events) && i < |trace| && id in trace[i].cache
    ensures k < i && Brings(events, k, id) && trace[i].cache[id] == events[k].response.prices[id]
    ensures forall j: nat | k < j < i :: !Brings(events, j, id)
  {
    CacheStep(trace[i - 1], ids, events[i - 1], id);
    if Brings(events, i - 1, id) {
      k := i - 1;
    } else {
      k := CachedIsLatest(ids, trace, events, i - 1, id);
    }
  }

  /** Every successful response brings all the requested ids. */
  ghost predicate Covers(ids: set<string>, e: Event)
  {
    e.Answered? && e.response.Fetched? && e.response.prices != map[] ==> ids <= e.response.prices.Keys
  }

  /** Then all prices asked for come from the latest refresh. */
  ghost predicate OneOrigin(s: State, ids: set<string>)
  {
    && (s.refreshes != [] ==> ids <= s.cache.Keys && forall id | id in ids ::
         id in s.origin && s.origin[id] == s.cacheAt)
    && (forall i | 0 < i < |s.refreshes| :: s.refreshes[i].covered)
    && (forall a, id | a in s.answers && id in ids ::
          id in a.origins && 0.0 <= a.at - a.origins[id] < 30.0)
  }

  lemma StepKeepsOneOrigin(s: State, ids: set<string>, e: Event)
    requires Inv(s, ids) && OneOrigin(s, ids) && Enabled(s, e) && Covers(ids, e)
    ensures OneOrigin(Step(s, ids, e), ids)
  {
    var s' := Step(s, ids, e);
    if (e.Call? || e.Acquire?) && FreshNow(s, ids) {
      var answer := s'.answers[|s.answers|];
      forall id | id in ids
        ensures id in answer.origins && 0.0 <= answer.at - answer.origins[id] < CACHE_TTL
      {
        assert id in s.cache;
      }
    }
  }

  /**
    When responses cover the ids: successful refreshes begin at least 30 s apart, and every answer given from the
    cache rests on fetches begun less than 30 s before.
   */
  lemma {:induction false} CoveringRun(ids: set<string>, trace: seq<State>, events: seq<Event>, i: nat)
    requires IsRun(ids, trace, events) && i < |trace| && forall e | e in events :: Covers(ids, e)
    ensures OneOrigin(trace[i], ids)
    ensures forall k | 0 < k < |trace[i].refreshes| ::
            trace[i].refreshes[k].began - trace[i].refreshes[k - 1].began >= 30.0
  {
    RunKeepsInv(ids, trace, events, i);
    if i > 0 {
      CoveringRun(ids, trace, events, i - 1);
      RunKeepsInv(ids, trace, events, i - 1);
      StepKeepsOneOrigin(trace[i - 1], ids, events[i - 1]);
    }
  }

  /** A response that refreshes the table. */
  predicate Useful(response: Response)
  {
    response.Fetched? && response.prices != map[]
  }

  /** Any single response that leaves an id out defeats the limit: two refreshes can begin at the same instant. */
  lemma PartialResponsesDefeatLimit(ids: set<string>, body: Table, clock: real)
    returns (trace: seq<State>, events: seq<Event>)
    requires body != map[] && !(ids <= body.Keys)
    ensures IsRun(ids, trace, events) && forall e | e in events && e.Answered? :: e.response == Fetched(body)
    ensures
      var s := trace[|trace| - 1];
      |s.refreshes| == 2 && s.refreshes[0].began == s.refreshes[1].began
  {
    trace, events := [Initial(clock)], [];
    trace, events := Extend(ids, trace, events, Arrive);
    trace, events := RefetchRun(ids, trace, events, body);
    trace, events := RefetchRun(ids, trace, events, body);
  }

  lemma Extend(ids: set<string>, trace: seq<State>, events: seq<Event>, e: Event)
    returns (trace': seq<State>, events': seq<Event>)
    requires IsRun(ids, trace, events) && Enabled(trace[|trace| - 1], e)
    ensures IsRun(ids, trace', events') && events' == events + [e]
    ensures trace'[|trace'| - 1] == Step(trace[|trace| - 1], ids, e)
  {
    trace', events' := trace + [Step(trace[|trace| - 1], ids, e)], events + [e];
  }

  /** A lone caller whose cache lacks an id, served with this response. */
  lemma RefetchRun(ids: set<string>, trace: seq<State>, events: seq<Event>, body: Table)
    returns (trace': seq<State>, events': seq<Event>)
    requires IsRun(ids, trace, events) && body != map[] && Refetchable(trace[|trace| - 1], ids)
    ensures IsRun(ids, trace', events') && events' == events + [Call(0), Acquire(0), Answered(0, Fetched(body))]
    ensures trace'[|trace'| - 1] == Refetched(trace[|trace| - 1], body)
  {
    Refetches(trace[|trace| - 1], ids, body);
    trace', events' := Extend(ids, trace, events, Call(0));
    trace', events' := Extend(ids, trace', events', Acquire(0));
    trace', events' := Extend(ids, trace', events', Answered(0, Fetched(body)));
  }

  ghost predicate Refetchable(s: State, ids: set<string>)
  {
    s.callers == [Outside] && s.lock == None && !(ids <= s.cache.Keys)
  }

  function Waiting(s: State): State { s.(callers := [Queued]) }

  function InFetch(s: State): State { s.(callers := [Fetching(s.clock)], lock := Some(0)) }

  function Refetched(s: State, body: Table): State
  {
    s.(cache := s.cache + body, cacheAt := s.clock, origin := s.origin + map id | id in body :: s.clock,
       refreshes := s.refreshes + [Refresh(s.clock, false)])
  }

  lemma Refetches(s: State, ids: set<string>, body: Table)
    requires Refetchable(s, ids) && body != map[]
    ensures Enabled(s, Call(0)) && Step(s, ids, Call(0)) == Waiting(s)
    ensures Enabled(Waiting(s), Acquire(0)) && Step(Waiting(s), ids, Acquire(0)) == InFetch(s)
    ensures Enabled(InFetch(s), Answered(0, Fetched(body))) &&
            Step(InFetch(s), ids, Answered(0, Fetched(body))) == Refetched(s, body)
  {}

  ghost predicate Spaced(s: State)
  {
    forall k | 0 < k < |s.refreshes| :: s.refreshes[k].began - s.refreshes[k - 1].began >= 30.0
  }

  /** The answers of the run are among these responses. */
  ghost predicate AnswersFrom(events: seq<Event>, responses: iset<Response>)
  {
    forall e | e in events && e.Answered? :: e.response in responses
  }

  /** Every run with these responses keeps the limit. */
  ghost predicate LimitHolds(ids: set<string>, responses: iset<Response>)
  {
    forall trace, events, i: nat :: IsRun(ids, trace, events) && AnswersFrom(events, responses) && i < |trace| ==>
        Spaced(trace[i])
  }

  /** The limit the cache is for holds of a source of prices if and only if its useful responses all cover the ids. */
  lemma LimitHoldsIff(ids: set<string>, responses: iset<Response>)
    ensures LimitHolds(ids, responses) <==> forall r | r in responses && Useful(r) :: ids <= r.prices.Keys
  {
    if r :| r in responses && Useful(r) && !(ids <= r.prices.Keys) {
      var trace, events := PartialResponsesDefeatLimit(ids, r.prices, 0.0);
      assert AnswersFrom(events, responses);
      var i := |trace| - 1;
      assert !Spaced(trace[i]);
    } else {
      forall trace, events, i: nat | IsRun(ids, trace, events) && AnswersFrom(events, responses) && i < |trace|
        ensures Spaced(trace[i])
      {
        assert forall e | e in events :: Covers(ids, e);
        CoveringRun(ids, trace, events, i);
      }
    }
  }
}

/** core/scanner.py, the ranking: an edge score per pair and a stable sort. */
module Ranking {
  import opened Prelude
  import opened PriceCache

  datatype PairSpec = PairSpec(pairId: string, inSym: string, coingeckoId: string, bluechip: real, spread: real)

  const ETH_USDC := PairSpec("ETH_USDC", "ETH", "ethereum", 1.00, 0.92)
  const ETH_USDT := PairSpec("ETH_USDT", "ETH", "ethereum", 0.95, 0.88)
  const CBBTC_USDC := PairSpec("cbBTC_USDC", "cbBTC", "bitcoin", 0.95, 0.85)
  const WETH_USDC := PairSpec("WETH_USDC", "WETH", "ethereum", 0.90, 0.93)

  const PAIRS: seq<PairSpec> := [ETH_USDC, ETH_USDT, CBBTC_USDC, WETH_USDC]

  datatype Strength = Strong | Medium | Weak

  datatype PairScore = PairScore(pair: PairSpec, priceUsd: real, change24h: real, momentum: real, sizeFit: real,
      composite: real, strength: Strength)

  function Max(a: real, b: real): real { if a >= b then a else b }

  function Min(a: real, b: real): real { if a <= b then a else b }

  function NormaliseMomentum(pct: real): real
  {
    Max(0.0, Min(1.0, (pct + 5.0) / 10.0))
  }

  /** The amount in ETH-equivalents. */
  function EthEquivalent(amountWei: int, inSym: string): real
  {
    var eth := amountWei as real / 1_000_000_000_000_000_000.0;
    if inSym == "cbBTC" then eth * 30.0 else eth
  }

  function FitOf(eth: real): real
  {
    if 0.0001 <= eth <= 1.0 then 1.0
    else if eth < 0.0001 then Max(0.3, eth / 0.0001)
    else Max(0.3, 1.0 / eth)
  }

  function SizeFit(amountWei: int, inSym: string): real
  {
    FitOf(EthEquivalent(amountWei, inSym))
  }

  function Classify(composite: real): Strength
  {
    if composite >= 0.72 then Strong else if composite >= 0.55 then Medium else Weak
  }

  function Composite(p: PairSpec, momentum: real, size: real): real
  {
    0.40 * momentum + 0.25 * p.bluechip + 0.20 * p.spread + 0.15 * size
  }

  function Value(f: Figure): real
  {
    if f.Number? then f.x else 0.0
  }

  function PriceOf(prices: Table, id: string): real
  {
    if id in prices then Value(prices[id].usd) else 0.0
  }

  function ChangeOf(prices: Table, id: string): real
  {
    if id in prices then Value(prices[id].change24h) else 0.0
  }

  /** Reading this id's figures raises. */
  predicate Refused(prices: Table, id: string)
  {
    id in prices && (prices[id].usd.Unusable? || prices[id].change24h.Unusable?)
  }

  function ScoreOf(p: PairSpec, prices: Table, amountWei: int): PairScore
  {
    var pct := ChangeOf(prices, p.coingeckoId);
    var momentum, size := NormaliseMomentum(pct), SizeFit(amountWei, p.inSym);
    var composite := Composite(p, momentum, size);
    PairScore(p, PriceOf(prices, p.coingeckoId), pct, momentum, size, composite, Classify(composite))
  }

  // ---- Python's stable `sort(key=composite, reverse=True)` ----

  /** Insert before the first strictly smaller element: equal ones keep their order. */
  function Insert(x: PairScore, sorted: seq<PairScore>): seq<PairScore>
  {
    if sorted == [] || x.composite >= sorted[0].composite then [x] + sorted
    else [sorted[0]] + Insert(x, sorted[1..])
  }

  function Sorted(s: seq<PairScore>): seq<PairScore>
  {
    if s == [] then [] else Insert(s[0], Sorted(s[1..]))
  }

  ghost predicate Descending(s: seq<PairScore>)
  {
    forall i, j | 0 <= i < j < |s| :: s[i].composite >= s[j].composite
  }

  /** The elements with this score, in order. */
  function Tied(s: seq<PairScore>, key: real): seq<PairScore>
  {
    if s == [] then [] else (if s[0].composite == key then [s[0]] else []) + Tied(s[1..], key)
  }

  lemma {:induction false} InsertPermutes(x: PairScore, s: seq<PairScore>)
    ensures multiset(Insert(x, s)) == multiset([x] + s)
  {
    if s != [] && x.composite < s[0].composite {
      InsertPermutes(x, s[1..]);
      assert s == [s[0]] + s[1..];
    }
  }

  lemma {:induction false} InsertDescends(x: PairScore, s: seq<PairScore>)
    requires Descending(s)
    ensures Descending(Insert(x, s))
  {
    if s != [] && x.composite < s[0].composite {
      InsertDescends(x, s[1..]);
      InsertPermutes(x, s[1..]);
      var rest := Insert(x, s[1..]);
      forall j | 0 <= j < |rest|
        ensures s[0].composite >= rest[j].composite
      {
        assert rest[j] in multiset([x] + s[1..]);
      }
    }
  }

  lemma {:induction false} InsertKeepsTies(x: PairScore, s: seq<PairScore>, key: real)
    ensures Tied(Insert(x, s), key) == Tied([x] + s, key)
  {
    assert ([x] + s)[1..] == s;
    if s != [] && x.composite < s[0].composite {
      InsertKeepsTies(x, s[1..], key);
      assert Insert(x, s)[1..] == Insert(x, s[1..]);
      assert ([x] + s[1..])[1..] == s[1..];
    }
  }

  /** The ranking is a descending permutation that keeps ties in their original order. */
  lemma {:induction false} SortedCorrect(s: seq<PairScore>, key: real)
    ensures Descending(Sorted(s)) && multiset(Sorted(s)) == multiset(s)
    ensures Tied(Sorted(s), key) == Tied(s, key)
  {
    if s != [] {
      SortedCorrect(s[1..], key);
      InsertDescends(s[0], Sorted(s[1..]));
      InsertPermutes(s[0], Sorted(s[1..]));
      InsertKeepsTies(s[0], Sorted(s[1..]), key);
      assert s == [s[0]] + s[1..];
      assert ([s[0]] + Sorted(s[1..]))[1..] == Sorted(s[1..]);
    }
  }

  /** The scores before sorting, in the order of PAIRS. */
  function AllScores(prices: Table, amountWei: int): seq<PairScore>
  {
    seq(|PAIRS|, i requires 0 <= i < |PAIRS| => ScoreOf(PAIRS[i], prices, amountWei))
  }

  /** `scan_pairs`, given the prices; it raises exactly if some pair's figures are no numbers. */
  method ScanPairs(prices: Table, amountWei: int)
    returns (raised: bool, ranked: seq<PairScore>, best: Option<PairScore>)
    ensures raised <==> exists i | 0 <= i < |PAIRS| :: Refused(prices, PAIRS[i].coingeckoId)
    ensures raised ==> ranked == [] && best == None
    ensures !raised ==> ranked == Sorted(AllScores(prices, amountWei)) && ranked != [] && best == Some(ranked[0])
    ensures !raised ==> multiset(ranked) == multiset(AllScores(prices, amountWei)) && Descending(ranked)
  {
    var scored: seq<PairScore> := [];
    for i := 0 to |PAIRS|
      invariant |scored| == i && forall j | 0 <= j < i :: scored[j] == ScoreOf(PAIRS[j], prices, amountWei)
      invariant forall j | 0 <= j < i :: !Refused(prices, PAIRS[j].coingeckoId)
    {
      if Refused(prices, PAIRS[i].coingeckoId) { return true, [], None; }
      scored := scored + [ScoreOf(PAIRS[i], prices, amountWei)];
    }
    assert scored == AllScores(prices, amountWei);
    raised, ranked := false, Sorted(scored);
    SortedCorrect(scored, 0.0);
    assert |multiset(ranked)| == |multiset(scored)|;
    best := Some(ranked[0]);
  }

  lemma FitBounds(eth: real)
    ensures 0.3 <= FitOf(eth) <= 1.0
  {}

  /** Size fit rises up to one ETH-equivalent and falls beyond it. */
  lemma FitShape(a: real, b: real)
    requires a <= b
    ensures b <= 1.0 ==> FitOf(a) <= FitOf(b)
    ensures a >= 1.0 ==> FitOf(a) >= FitOf(b)
  {}

  lemma MomentumBounds(pct: real)
    ensures 0.0 <= NormaliseMomentum(pct) <= 1.0
  {}

  /** The change in percent, cut off at five either way. */
  function Clipped(pct: real): real
  {
    if pct <= -5.0 then -5.0 else if pct >= 5.0 then 5.0 else pct
  }

  /** Momentum is 0 exactly up to -5 %, 1 exactly from +5 % on, linear between, and never falls as the change rises. */
  lemma MomentumIs(pct: real, more: real)
    requires pct <= more
    ensures NormaliseMomentum(pct) == 0.1 * Clipped(pct) + 0.5
    ensures NormaliseMomentum(pct) == 0.0 <==> pct <= -5.0
    ensures NormaliseMomentum(pct) == 1.0 <==> pct >= 5.0
    ensures NormaliseMomentum(pct) <= NormaliseMomentum(more)
  {}

  /** The reply gives this figure for the id; where it gives none, 0 stands in. */
  ghost predicate Gives(prices: Table, id: string, change: bool, x: real)
  {
    if id in prices && (if change then prices[id].change24h else prices[id].usd).Number? then
      x == (if change then prices[id].change24h else prices[id].usd).x
    else x == 0.0
  }

  /**
    A pair's score shows the price and the change of its own id, and is strong from 0.72 on and medium from 0.55 on.
   */
  lemma ScoreShows(p: PairSpec, prices: Table, amountWei: int)
    ensures
      var s := ScoreOf(p, prices, amountWei);
      && s.pair == p && Gives(prices, p.coingeckoId, false, s.priceUsd) &&
         Gives(prices, p.coingeckoId, true, s.change24h)
      && (s.strength == Strong <==> s.composite >= 0.72)
      && (s.strength == Weak <==> s.composite < 0.55)
  {}

  /** One ETH is 10^18 wei, and one cbBTC counts as 30 ETH. */
  lemma EquivalentIs(amountWei: int)
    ensures 1_000_000_000_000_000_000.0 * EthEquivalent(amountWei, "ETH") == amountWei as real
    ensures EthEquivalent(amountWei, "WETH") == EthEquivalent(amountWei, "ETH")
    ensures EthEquivalent(amountWei, "cbBTC") == 30.0 * EthEquivalent(amountWei, "ETH")
  {}

  /** Size fit exactly: 1 from 0.0001 to 1, proportional below, inverse above, and never less than 0.3. */
  lemma FitIs(eth: real)
    ensures 0.0001 <= eth <= 1.0 <==> FitOf(eth) == 1.0
    ensures eth <= 0.00003 ==> FitOf(eth) == 0.3
    ensures 0.00003 <= eth <= 0.0001 ==> FitOf(eth) == 10000.0 * eth
    ensures 1.0 <= eth && 0.3 * eth <= 1.0 ==> FitOf(eth) * eth == 1.0
    ensures 0.3 * eth >= 1.0 ==> FitOf(eth) == 0.3
  {
    if eth > 1.0 {
      var q := 1.0 / eth;
      assert q * eth == 1.0;
      InverseBelowOne(eth, q);
    }
  }

  lemma InverseBelowOne(eth: real, q: real)
    requires eth > 1.0 && q * eth == 1.0
    ensures 0.0 < q < 1.0
    ensures 0.3 * eth <= 1.0 <==> q >= 0.3
  {}

  /** The four composites, momentum m and fit f of the pair given. */
  lemma CompositeIs(m: real, f: real)
    ensures Composite(ETH_USDC, m, f) == 0.4 * m + 0.15 * f + 0.434
    ensures Composite(ETH_USDT, m, f) == 0.4 * m + 0.15 * f + 0.4135
    ensures Composite(WETH_USDC, m, f) == 0.4 * m + 0.15 * f + 0.411
    ensures Composite(CBBTC_USDC, m, f) == 0.4 * m + 0.15 * f + 0.4075
  {}

  /** Every composite lies in [0.4525, 0.984], whatever the prices and the amount. */
  lemma CompositeBounds(p: PairSpec, prices: Table, amountWei: int)
    requires p in PAIRS
    ensures 0.4525 <= ScoreOf(p, prices, amountWei).composite <= 0.984
  {
    MomentumBounds(ChangeOf(prices, p.coingeckoId));
    FitBounds(EthEquivalent(amountWei, p.inSym));
  }

  /** How much momentum and size speak for cbBTC over ETH. */
  function CbBtcAdvantage(prices: Table, amountWei: int): real
  {
    0.40 * (NormaliseMomentum(ChangeOf(prices, "bitcoin")) - NormaliseMomentum(ChangeOf(prices, "ethereum")))
      + 0.15 * (SizeFit(amountWei, "cbBTC") - SizeFit(amountWei, "ETH"))
  }

  /** The three ETH pairs always rank in this order, strictly. */
  lemma EthOrder(prices: Table, amountWei: int)
    ensures ScoreOf(ETH_USDC, prices, amountWei).composite > ScoreOf(ETH_USDT, prices, amountWei).composite
                                                          > ScoreOf(WETH_USDC, prices, amountWei).composite
  {}

  lemma CbBtcGap(prices: Table, amountWei: int)
    ensures ScoreOf(CBBTC_USDC, prices, amountWei).composite - ScoreOf(ETH_USDC, prices, amountWei).composite
            == CbBtcAdvantage(prices, amountWei) - 0.0265
  {}

  /** The winner of a stable descending sort: the first of the highest. */
  function Winner(s: seq<PairScore>): PairScore
    requires s != []
  {
    if |s| == 1 || s[0].composite >= Winner(s[1..]).composite then s[0] else Winner(s[1..])
  }

  lemma {:induction false} SortedHead(s: seq<PairScore>)
    requires s != []
    ensures Sorted(s) != [] && Sorted(s)[0] == Winner(s)
  {
    if |s| == 1 {
      assert s[1..] == [];
    } else {
      SortedHead(s[1..]);
    }
  }

  lemma WinnerOfFour(a: PairScore, b: PairScore, c: PairScore, d: PairScore)
    requires a.composite > b.composite > d.composite
    ensures Winner([a, b, c, d]) == if c.composite > a.composite then c else a
  {
    assert [a, b, c, d][1..] == [b, c, d];
    assert [b, c, d][1..] == [c, d];
    assert [c, d][1..] == [d];
    assert Winner([d]) == d;
    assert Winner([c, d]) == if c.composite >= d.composite then c else d;
  }

  lemma PickByAdvantage(prices: Table, amountWei: int)
    ensures
      var ranked := Sorted(AllScores(prices, amountWei));
      ranked != [] &&
      ranked[0].pair == if CbBtcAdvantage(prices, amountWei) > 0.0265 then CBBTC_USDC else ETH_USDC
  {
    EthOrder(prices, amountWei);
    CbBtcGap(prices, amountWei);
    var all := AllScores(prices, amountWei);
    assert all == [all[0], all[1], all[2], all[3]];
    SortedHead(all);
    WinnerOfFour(all[0], all[1], all[2], all[3]);
  }

  /**
    The best pick, from the raw changes of bitcoin and ethereum: cbBTC exactly if the difference of the two, each cut
    off at five percent either way, and the difference in size fit speak for it strictly enough; else ETH/USDC.
   */
  lemma BestPick(prices: Table, amountWei: int, btc: real, eth: real)
    requires Gives(prices, "bitcoin", true, btc) && Gives(prices, "ethereum", true, eth)
    ensures
      var ranked := Sorted(AllScores(prices, amountWei));
      var x := EthEquivalent(amountWei, "ETH");
      && ranked != []
      && (ranked[0].pair == CBBTC_USDC <==>
            0.04 * (Clipped(btc) - Clipped(eth)) + 0.15 * (FitOf(30.0 * x) - FitOf(x)) > 0.0265)
      && (ranked[0].pair == ETH_USDC <==> ranked[0].pair != CBBTC_USDC)
  {
    PickByAdvantage(prices, amountWei);
    MomentumIs(btc, btc);
    MomentumIs(eth, eth);
    EquivalentIs(amountWei);
    assert ETH_USDC.spread != CBBTC_USDC.spread;
  }
}
