/**
 The per-address rate limiter (internal/middleware/limiter.go). The bucket of golang.org/x/time/rate is taken as a
 real-valued token bucket; getLimiter with Allow, and Reserve with Cancel, are each one step at one instant.
 */
module Limiter {
  import opened Prelude

  /** Sustained rate (tokens a second), capacity, and the library's time to wait for a part of a token. */
  datatype Config = Config(rate: int, burst: int, wait: real -> real) {
    ghost predicate Valid() {
      rate >= 1 && burst >= 1 && forall x :: x >= 0.0 ==> wait(x) >= 0.0
    }

    /** The wait is what the rate needs. */
    ghost predicate Exact() {
      forall x :: x >= 0.0 ==> Supply(rate, wait(x)) == x
    }
  }

  const INACTIVE_LIMIT: real := 180.0

  /** `lastEvent` is the latest time a reservation was given. */
  datatype Bucket = Bucket(tokens: real, last: real, lastEvent: real)

  datatype Reservation = Reservation(timeToAct: real)

  datatype Answer = BadRequest | Allowed(remaining: int) | Denied(retryAfter: int)

  datatype Client = Client(bucket: Bucket, lastSeen: real)

  function Min(x: real, y: real): real {
    if x <= y then x else y
  }

  function Max(x: int, y: int): int {
    if x >= y then x else y
  }

  /** What a rate supplies in a time: their product, added up. */
  function Supply(rate: int, t: real): real
    decreases rate
  {
    if rate <= 0 then 0.0 else Supply(rate - 1, t) + t
  }

  /** The tokens in a bucket at a later time. */
  function Level(c: Config, b: Bucket, now: real): real {
    Min(c.burst as real, b.tokens + Supply(c.rate, now - b.last))
  }

  function Full(c: Config, now: real): Bucket {
    Bucket(c.burst as real, now, now)
  }

  function Reserve(c: Config, b: Bucket, now: real): (Bucket, Reservation)
    requires c.Valid()
  {
    var tokens := Level(c, b, now) - 1.0;
    var timeToAct := if tokens < 0.0 then now + c.wait(-tokens) else now;
    (Bucket(tokens, now, timeToAct), Reservation(timeToAct))
  }

  function Cancel(c: Config, b: Bucket, r: Reservation, now: real): Bucket
    requires c.Valid()
  {
    var restore := 1.0 - Supply(c.rate, b.lastEvent - r.timeToAct);
    if r.timeToAct < now || restore <= 0.0 then b
    else
      var prevEvent := r.timeToAct - c.wait(1.0);
      Bucket(Min(c.burst as real, Level(c, b, now) + restore), now,
             if r.timeToAct == b.lastEvent && prevEvent >= now then prevEvent else b.lastEvent)
  }

  /** Allow, and the peek at the next token that follows a refusal. */
  function Take(c: Config, b: Bucket, now: real): (Bucket, Answer)
    requires c.Valid()
  {
    var level := Level(c, b, now);
    if level >= 1.0 then (Bucket(level - 1.0, now, now), Allowed((level - 1.0).Floor))
    else
      var (reserved, r) := Reserve(c, b, now);
      (Cancel(c, reserved, r, now), Denied(Max(1, (r.timeToAct - now).Floor)))
  }

  // ---- the map of clients ----

  type Clients = map<string, Client>

  function ClientAt(c: Config, ips: Clients, ip: string, now: real): Client {
    if ip in ips then Client(ips[ip].bucket, now) else Client(Full(c, now), now)
  }

  function ServeIp(c: Config, ips: Clients, ip: string, now: real): (Clients, Answer)
    requires c.Valid()
  {
    var (bucket, answer) := Take(c, ClientAt(c, ips, ip, now).bucket, now);
    (ips[ip := Client(bucket, now)], answer)
  }

  function Evict(ips: Clients, now: real): Clients {
    map ip | ip in ips && !(now - ips[ip].lastSeen > INACTIVE_LIMIT) :: ips[ip]
  }

  /** The same with some clients not looked at yet. */
  function EvictAllBut(ips: Clients, now: real, rest: set<string>): Clients {
    map ip | ip in ips && (ip in rest || !(now - ips[ip].lastSeen > INACTIVE_LIMIT)) :: ips[ip]
  }

  /** net.ParseIP and String: the canonical form of an address, if it is one. */
  type Canon = string -> Option<string>

  datatype Event = Request(address: string, at: real) | Cleanup(at: real)

  function Apply(c: Config, canon: Canon, ips: Clients, e: Event): (Clients, Option<Answer>)
    requires c.Valid()
  {
    match e
    case Cleanup(now) => (Evict(ips, now), None)
    case Request(address, now) =>
      match canon(address)
      case None => (ips, Some(BadRequest))
      case Some(ip) => var (after, answer) := ServeIp(c, ips, ip, now); (after, Some(answer))
  }

  /** A run and the answers it gives; with `evicting` false the clean-ups do nothing. */
  function Run(c: Config, canon: Canon, events: seq<Event>, evicting: bool): (r: (Clients, seq<Option<Answer>>))
    requires c.Valid()
    ensures |r.1| == |events|
  {
    if events == [] then (map[], [])
    else
      var last := events[|events| - 1];
      var (ips, answers) := Run(c, canon, events[..|events| - 1], evicting);
      if last.Cleanup? && !evicting then (ips, answers + [None])
      else var (after, answer) := Apply(c, canon, ips, last); (after, answers + [answer])
  }

  function Clock(events: seq<Event>): real {
    if events == [] then 0.0 else events[|events| - 1].at
  }

  /** Times never go back. */
  ghost predicate Ordered(events: seq<Event>) {
    events == [] || (Clock(events[..|events| - 1]) <= Clock(events) && Ordered(events[..|events| - 1]))
  }

  // ---- a bucket is what its level is ----

  lemma {:induction false} SupplyIsProduct(rate: nat, t: real)
    ensures Supply(rate, t) == rate as real * t
  {
    if rate > 0 {
      SupplyIsProduct(rate - 1, t);
      assert rate as real * t == (rate - 1) as real * t + t;
    }
  }

  lemma {:induction false} SupplySum(rate: int, x: real, y: real, sum: real)
    requires x + y == sum
    ensures Supply(rate, sum) == Supply(rate, x) + Supply(rate, y)
    decreases rate
  {
    if rate > 0 { SupplySum(rate - 1, x, y, sum); }
  }

  lemma {:induction false} SupplySign(rate: int, t: real)
    requires t >= 0.0
    ensures Supply(rate, t) >= 0.0 && (t == 0.0 ==> Supply(rate, t) == 0.0)
    decreases rate
  {
    if rate > 0 { SupplySign(rate - 1, t); }
  }

  /** What three minutes supply, and any longer time. */
  lemma {:induction false} SupplyWhileIdle(rate: nat, t: real)
    requires t >= INACTIVE_LIMIT
    ensures Supply(rate, t) >= (180 * rate) as real
    ensures t == INACTIVE_LIMIT ==> Supply(rate, t) == (180 * rate) as real
  {
    if rate > 0 { SupplyWhileIdle(rate - 1, t); }
  }

  lemma MinLater(cap: real, x: real, more: real)
    requires more >= 0.0
    ensures Min(cap, x + more) == Min(cap, Min(cap, x) + more)
  {
  }

  /** The level at a later time follows from the level now. */
  lemma LevelLater(c: Config, b: Bucket, now: real, later: real)
    requires c.Valid() && now <= later
    ensures Level(c, b, later) == Min(c.burst as real, Level(c, b, now) + Supply(c.rate, later - now))
  {
    SupplySum(c.rate, now - b.last, later - now, later - b.last);
    SupplySign(c.rate, later - now);
    MinLater(c.burst as real, b.tokens + Supply(c.rate, now - b.last), Supply(c.rate, later - now));
  }

  lemma Still(c: Config, b: Bucket, now: real)
    requires b.last == now
    ensures Level(c, b, now) == Min(c.burst as real, b.tokens)
  {
    SupplySign(c.rate, now - b.last);
  }

  /** Cancelling a reservation at the instant it was made puts its token back. */
  lemma CancelRestores(c: Config, b: Bucket, now: real)
    requires c.Valid()
    ensures var (reserved, r) := Reserve(c, b, now);
      var after := Cancel(c, reserved, r, now);
      after.last == now && after.tokens == Level(c, b, now)
  {
    var level := Level(c, b, now);
    var (reserved, r) := Reserve(c, b, now);
    assert r.timeToAct >= now;
    Still(c, reserved, now);
    SupplySign(c.rate, reserved.lastEvent - r.timeToAct);
  }

  /** A refused request that is peeked at and cancelled at the same instant costs nothing. */
  lemma PeekIsFree(c: Config, b: Bucket, now: real)
    requires c.Valid()
    ensures var (reserved, r) := Reserve(c, b, now); Level(c, Cancel(c, reserved, r, now), now) == Level(c, b, now)
  {
    CancelRestores(c, b, now);
    var (reserved, r) := Reserve(c, b, now);
    Still(c, Cancel(c, reserved, r, now), now);
  }

  /** Division by the rate is such a wait. */
  lemma DivisionIsExact(rate: int, burst: int)
    requires rate >= 1 && burst >= 1
    ensures var c := Config(rate, burst, x => x / rate as real); c.Valid() && c.Exact()
  {
    var c := Config(rate, burst, x => x / rate as real);
    forall x | x >= 0.0 ensures c.wait(x) >= 0.0 && Supply(rate, c.wait(x)) == x {
      Divided(x, rate as real);
      SupplyIsProduct(rate, c.wait(x));
    }
  }

  lemma Divided(x: real, y: real)
    requires x >= 0.0 && y > 0.0
    ensures x / y >= 0.0 && y * (x / y) == x
  {
  }

  /** The time that a refused request is told to wait for is when the next token is there. */
  lemma RefusedUntil(c: Config, b: Bucket, now: real)
    requires c.Valid() && c.Exact() && Level(c, b, now) < 1.0
    ensures var (after, answer) := Take(c, b, now);
      var wait := c.wait(1.0 - Level(c, b, now));
      && answer == Denied(Max(1, wait.Floor))
      && Level(c, after, now + wait) == 1.0
  {
    var wait := c.wait(1.0 - Level(c, b, now));
    var after := Take(c, b, now).0;
    TakeTakes(c, b, now);
    assert now + wait - after.last == wait;
  }

  /** A request takes a token if there is one, and is refused if there is not. */
  lemma TakeTakes(c: Config, b: Bucket, now: real)
    requires c.Valid()
    ensures var (after, answer) := Take(c, b, now);
      && (answer.Allowed? <==> Level(c, b, now) >= 1.0)
      && after.last == now
      && after.tokens == Level(c, after, now) == Level(c, b, now) - if answer.Allowed? then 1.0 else 0.0
  {
    CancelRestores(c, b, now);
    Still(c, Take(c, b, now).0, now);
  }

  /** What a request is answered, and what it leaves, depends on the bucket's level alone. */
  lemma TakeByLevel(c: Config, b: Bucket, b': Bucket, now: real)
    requires c.Valid() && Level(c, b, now) == Level(c, b', now)
    ensures Take(c, b, now).1 == Take(c, b', now).1
    ensures Level(c, Take(c, b, now).0, now) == Level(c, Take(c, b', now).0, now)
    ensures Level(c, Take(c, b, now).0, now) == Level(c, b, now) - if Take(c, b, now).1.Allowed? then 1.0 else 0.0
    ensures Take(c, b, now).1.Allowed? <==> Level(c, b, now) >= 1.0
  {
    TakeTakes(c, b, now);
    TakeTakes(c, b', now);
  }

  /** An admitted request is told how many whole tokens are left. */
  lemma RemainingIsLeft(c: Config, b: Bucket, now: real)
    requires c.Valid() && Level(c, b, now) >= 1.0
    ensures var (after, answer) := Take(c, b, now); answer == Allowed(Level(c, after, now).Floor)
  {
    TakeTakes(c, b, now);
  }

  /** An address that has no entry has the whole burst before it. */
  lemma NewAddressHasBurst(c: Config, ips: Clients, ip: string, now: real)
    requires c.Valid() && ip !in ips
    ensures ServeIp(c, ips, ip, now).1 == Allowed(c.burst - 1)
  {
    Still(c, Full(c, now), now);
  }

  ghost predicate ClientOk(c: Config, client: Client, now: real) {
    0.0 <= client.bucket.tokens <= c.burst as real && client.bucket.last == client.lastSeen <= now
  }

  ghost predicate ClientsOk(c: Config, ips: Clients, now: real) {
    forall ip :: ip in ips ==> ClientOk(c, ips[ip], now)
  }

  /** An address without an entry is one whose bucket would be full. */
  function LevelOf(c: Config, ips: Clients, ip: string, now: real): real {
    if ip in ips then Level(c, ips[ip].bucket, now) else c.burst as real
  }

  lemma LevelInRange(c: Config, b: Bucket, now: real)
    requires c.Valid() && 0.0 <= b.tokens && b.last <= now
    ensures 0.0 <= Level(c, b, now) <= c.burst as real
  {
    SupplySign(c.rate, now - b.last);
  }

  lemma TakeKeepsOk(c: Config, b: Bucket, now: real)
    requires c.Valid() && 0.0 <= b.tokens <= c.burst as real && b.last <= now
    ensures var b' := Take(c, b, now).0; 0.0 <= b'.tokens <= c.burst as real && b'.last == now
    ensures 0.0 <= Level(c, b, now) <= c.burst as real
  {
    LevelInRange(c, b, now);
    TakeTakes(c, b, now);
  }

  /** Three idle minutes refill any bucket that the rate can fill in three minutes. */
  lemma IdleIsFull(c: Config, client: Client, now: real)
    requires c.Valid() && c.burst <= 180 * c.rate
    requires 0.0 <= client.bucket.tokens && client.bucket.last == client.lastSeen
    requires now - client.lastSeen > INACTIVE_LIMIT
    ensures Level(c, client.bucket, now) == c.burst as real
  {
    SupplyWhileIdle(c.rate, now - client.lastSeen);
  }

  /** So eviction changes no address's level. */
  lemma EvictKeepsLevels(c: Config, ips: Clients, now: real, ip: string)
    requires c.Valid() && c.burst <= 180 * c.rate && ClientsOk(c, ips, now)
    ensures LevelOf(c, Evict(ips, now), ip, now) == LevelOf(c, ips, ip, now)
    ensures ClientsOk(c, Evict(ips, now), now)
  {
    if ip in ips && ip !in Evict(ips, now) {
      IdleIsFull(c, ips[ip], now);
    }
  }

  lemma LevelOfLater(c: Config, ips: Clients, ip: string, now: real, later: real)
    requires c.Valid() && now <= later
    ensures LevelOf(c, ips, ip, later) == Min(c.burst as real, LevelOf(c, ips, ip, now) + Supply(c.rate, later - now))
  {
    SupplySign(c.rate, later - now);
    if ip in ips {
      LevelLater(c, ips[ip].bucket, now, later);
    }
  }

  lemma ServeByLevel(c: Config, ips: Clients, ips': Clients, ip: string, now: real)
    requires c.Valid() && ClientsOk(c, ips, now) && ClientsOk(c, ips', now)
    requires LevelOf(c, ips, ip, now) == LevelOf(c, ips', ip, now)
    ensures ServeIp(c, ips, ip, now).1 == ServeIp(c, ips', ip, now).1
    ensures ServeIp(c, ips, ip, now).1.Allowed? <==> LevelOf(c, ips, ip, now) >= 1.0
    ensures forall other :: other != ip ==>
      LevelOf(c, ServeIp(c, ips, ip, now).0, other, now) == LevelOf(c, ips, other, now)
    ensures LevelOf(c, ServeIp(c, ips, ip, now).0, ip, now) ==
      LevelOf(c, ips, ip, now) - if ServeIp(c, ips, ip, now).1.Allowed? then 1.0 else 0.0
    ensures LevelOf(c, ServeIp(c, ips, ip, now).0, ip, now) == LevelOf(c, ServeIp(c, ips', ip, now).0, ip, now)
    ensures ClientsOk(c, ServeIp(c, ips, ip, now).0, now) && ClientsOk(c, ServeIp(c, ips', ip, now).0, now)
  {
    var b, b' := ClientAt(c, ips, ip, now).bucket, ClientAt(c, ips', ip, now).bucket;
    SupplySign(c.rate, now - now);
    TakeByLevel(c, b, b', now);
    TakeKeepsOk(c, b, now);
    TakeKeepsOk(c, b', now);
  }

  lemma OkLater(c: Config, ips: Clients, now: real, later: real)
    requires ClientsOk(c, ips, now) && now <= later
    ensures ClientsOk(c, ips, later)
  {
  }

  // ---- eviction is invisible ----

  ghost predicate Agree(c: Config, ips: Clients, ips': Clients, now: real) {
    && ClientsOk(c, ips, now) && ClientsOk(c, ips', now)
    && forall ip :: LevelOf(c, ips, ip, now) == LevelOf(c, ips', ip, now)
  }

  lemma AgreeLater(c: Config, ips: Clients, ips': Clients, now: real, later: real)
    requires c.Valid() && now <= later && Agree(c, ips, ips', now)
    ensures Agree(c, ips, ips', later)
  {
    forall ip ensures LevelOf(c, ips, ip, later) == LevelOf(c, ips', ip, later) {
      LevelOfLater(c, ips, ip, now, later);
      LevelOfLater(c, ips', ip, now, later);
    }
  }

  lemma AgreeStep(c: Config, canon: Canon, ips: Clients, ips': Clients, e: Event)
    requires c.Valid() && c.burst <= 180 * c.rate && Agree(c, ips, ips', e.at)
    ensures e.Cleanup? ==> Agree(c, Evict(ips, e.at), ips', e.at)
    ensures e.Request? ==> Apply(c, canon, ips, e).1 == Apply(c, canon, ips', e).1
    ensures e.Request? ==> Agree(c, Apply(c, canon, ips, e).0, Apply(c, canon, ips', e).0, e.at)
  {
    match e
    case Cleanup(now) =>
      forall ip ensures LevelOf(c, Evict(ips, now), ip, now) == LevelOf(c, ips', ip, now) {
        EvictKeepsLevels(c, ips, now, ip);
      }
    case Request(address, now) =>
      if canon(address).Some? {
        ServeByLevel(c, ips, ips', canon(address).value, now);
        ServeByLevel(c, ips', ips, canon(address).value, now);
      }
  }

  lemma {:induction false} RunsAgree(c: Config, canon: Canon, events: seq<Event>)
    requires c.Valid() && c.burst <= 180 * c.rate && Ordered(events)
    ensures Run(c, canon, events, true).1 == Run(c, canon, events, false).1
    ensures Agree(c, Run(c, canon, events, true).0, Run(c, canon, events, false).0, Clock(events))
  {
    if events != [] {
      var init, last := events[..|events| - 1], events[|events| - 1];
      RunsAgree(c, canon, init);
      var ips, ips' := Run(c, canon, init, true).0, Run(c, canon, init, false).0;
      AgreeLater(c, ips, ips', Clock(init), last.at);
      AgreeStep(c, canon, ips, ips', last);
    }
  }

  // ---- refused requests leave no trace ----

  predicate IsDenied(answer: Option<Answer>) {
    answer.Some? && answer.value.Denied?
  }

  /** The run without its refused requests, and the answers to the others. */
  function Heeded(events: seq<Event>, answers: seq<Option<Answer>>): (r: (seq<Event>, seq<Option<Answer>>))
    requires |answers| == |events|
    ensures |r.0| == |r.1|
  {
    if events == [] then ([], [])
    else
      var n := |events| - 1;
      var (es, ans) := Heeded(events[..n], answers[..n]);
      if IsDenied(answers[n]) then (es, ans) else (es + [events[n]], ans + [answers[n]])
  }

  lemma DeniedKeepsLevels(c: Config, canon: Canon, ips: Clients, ips': Clients, e: Event)
    requires c.Valid() && Agree(c, ips, ips', e.at) && IsDenied(Apply(c, canon, ips, e).1)
    ensures Agree(c, Apply(c, canon, ips, e).0, ips', e.at)
  {
    ServeByLevel(c, ips, ips, canon(e.address).value, e.at);
  }

  /** The run without its refused requests gives the answers it should, and the same levels. */
  ghost predicate DeniedLeftOut(
      c: Config, canon: Canon, events: seq<Event>, kept: seq<Event>, expected: seq<Option<Answer>>)
    requires c.Valid()
  {
    && Ordered(kept) && Clock(kept) <= Clock(events)
    && Run(c, canon, kept, true).1 == expected
    && Agree(c, Run(c, canon, events, true).0, Run(c, canon, kept, true).0, Clock(events))
  }

  lemma HeededStep(events: seq<Event>, answers: seq<Option<Answer>>, e: Event, answer: Option<Answer>)
    requires |answers| == |events|
    ensures var (es, ans) := Heeded(events, answers);
      Heeded(events + [e], answers + [answer]) == if IsDenied(answer) then (es, ans) else (es + [e], ans + [answer])
  {
    assert (events + [e])[..|events|] == events && (answers + [answer])[..|answers|] == answers;
  }

  lemma DeniedStep(
      c: Config, canon: Canon, events: seq<Event>, kept: seq<Event>, expected: seq<Option<Answer>>, e: Event)
    requires c.Valid() && c.burst <= 180 * c.rate && Clock(events) <= e.at
    requires DeniedLeftOut(c, canon, events, kept, expected)
    ensures var answer := Apply(c, canon, Run(c, canon, events, true).0, e).1;
      if IsDenied(answer) then DeniedLeftOut(c, canon, events + [e], kept, expected)
      else DeniedLeftOut(c, canon, events + [e], kept + [e], expected + [answer])
  {
    var ips, ips' := Run(c, canon, events, true).0, Run(c, canon, kept, true).0;
    AgreeLater(c, ips, ips', Clock(events), e.at);
    RunStep(c, canon, events, e, true);
    if IsDenied(Apply(c, canon, ips, e).1) {
      DeniedKeepsLevels(c, canon, ips, ips', e);
    } else {
      BothApply(c, canon, ips, ips', e);
      RunStep(c, canon, kept, e, true);
    }
  }

  /** Leaving out every request that was refused changes no other answer, nor any level. */
  lemma {:induction false} DeniedInvisible(c: Config, canon: Canon, events: seq<Event>)
    requires c.Valid() && c.burst <= 180 * c.rate && Ordered(events)
    ensures var (kept, expected) := Heeded(events, Run(c, canon, events, true).1);
      DeniedLeftOut(c, canon, events, kept, expected)
  {
    if events != [] {
      var init, last := events[..|events| - 1], events[|events| - 1];
      assert events == init + [last];
      DeniedInvisible(c, canon, init);
      var ips, answers := Run(c, canon, init, true).0, Run(c, canon, init, true).1;
      var kept, expected := Heeded(init, answers).0, Heeded(init, answers).1;
      RunStep(c, canon, init, last, true);
      HeededStep(init, answers, last, Apply(c, canon, ips, last).1);
      DeniedStep(c, canon, init, kept, expected, last);
    }
  }

  lemma BothApply(c: Config, canon: Canon, ips: Clients, ips': Clients, e: Event)
    requires c.Valid() && c.burst <= 180 * c.rate && Agree(c, ips, ips', e.at)
    ensures Apply(c, canon, ips, e).1 == Apply(c, canon, ips', e).1
    ensures Agree(c, Apply(c, canon, ips, e).0, Apply(c, canon, ips', e).0, e.at)
  {
    AgreeStep(c, canon, ips, ips', e);
    if e.Cleanup? {
      forall ip ensures LevelOf(c, Evict(ips', e.at), ip, e.at) == LevelOf(c, ips', ip, e.at) {
        EvictKeepsLevels(c, ips', e.at, ip);
      }
    }
  }

  // ---- and visible as soon as three minutes are not enough ----

  function Volley(address: string, at: real, n: nat): (events: seq<Event>)
    ensures |events| == n
  {
    if n == 0 then [] else Volley(address, at, n - 1) + [Request(address, at)]
  }

  lemma RunStep(c: Config, canon: Canon, events: seq<Event>, e: Event, evicting: bool)
    requires c.Valid()
    ensures var (ips, answers) := Run(c, canon, events, evicting);
      Run(c, canon, events + [e], evicting) ==
        if e.Cleanup? && !evicting then (ips, answers + [None])
        else (Apply(c, canon, ips, e).0, answers + [Apply(c, canon, ips, e).1])
    ensures Ordered(events) && Clock(events) <= e.at ==> Ordered(events + [e])
    ensures Clock(events + [e]) == e.at
  {
    assert (events + [e])[..|events|] == events;
  }

  lemma {:induction false} RunOk(c: Config, canon: Canon, events: seq<Event>, evicting: bool)
    requires c.Valid() && Ordered(events)
    ensures ClientsOk(c, Run(c, canon, events, evicting).0, Clock(events))
  {
    if events != [] {
      var init, last := events[..|events| - 1], events[|events| - 1];
      RunOk(c, canon, init, evicting);
      var ips := Run(c, canon, init, evicting).0;
      OkLater(c, ips, Clock(init), last.at);
      if last.Request? && canon(last.address).Some? {
        ServeByLevel(c, ips, ips, canon(last.address).value, last.at);
      }
    }
  }

  /** What is left of a level after n requests. */
  ghost predicate Drained(level: real, start: real, n: nat) {
    if n as real <= start then level == start - n as real else level < 1.0
  }

  lemma DrainedMore(level: real, start: real, n: nat)
    requires Drained(level, start, n)
    ensures Drained(if level >= 1.0 then level - 1.0 else level, start, n + 1)
  {
  }

  /** A volley at one instant drains a token a request, and then nothing. */
  lemma {:induction false} VolleyDrains(
      c: Config, canon: Canon, before: seq<Event>, evicting: bool, address: string, ip: string, at: real, n: nat)
    requires c.Valid() && Ordered(before) && Clock(before) <= at && canon(address) == Some(ip)
    ensures Ordered(before + Volley(address, at, n))
    ensures n > 0 ==> Clock(before + Volley(address, at, n)) == at
    ensures var ips, x := Run(c, canon, before + Volley(address, at, n), evicting).0,
                          LevelOf(c, Run(c, canon, before, evicting).0, ip, at);
      && (n > 0 ==> ip in ips && ips[ip].lastSeen == at)
      && Drained(LevelOf(c, ips, ip, at), x, n)
  {
    if n == 0 {
      assert before + Volley(address, at, 0) == before;
      RunOk(c, canon, before, evicting);
      LevelNonNegative(c, Run(c, canon, before, evicting).0, ip, Clock(before), at);
    } else {
      VolleyDrains(c, canon, before, evicting, address, ip, at, n - 1);
      var sofar := before + Volley(address, at, n - 1);
      assert before + Volley(address, at, n) == sofar + [Request(address, at)];
      OneMore(c, canon, sofar, evicting, address, ip, at);
      var x := LevelOf(c, Run(c, canon, before, evicting).0, ip, at);
      DrainedMore(LevelOf(c, Run(c, canon, sofar, evicting).0, ip, at), x, n - 1);
    }
  }

  /** One request more: admitted if there is a token, which it takes. */
  lemma OneMore(c: Config, canon: Canon, sofar: seq<Event>, evicting: bool, address: string, ip: string, at: real)
    requires c.Valid() && Ordered(sofar) && Clock(sofar) <= at && canon(address) == Some(ip)
    ensures var more := sofar + [Request(address, at)];
      var ips, level := Run(c, canon, more, evicting).0, LevelOf(c, Run(c, canon, sofar, evicting).0, ip, at);
      && Ordered(more) && Clock(more) == at
      && ip in ips && ips[ip].lastSeen == at
      && LevelOf(c, ips, ip, at) == (if level >= 1.0 then level - 1.0 else level)
      && Run(c, canon, more, evicting).1[|sofar|].Some?
      && (Run(c, canon, more, evicting).1[|sofar|].value.Allowed? <==> level >= 1.0)
  {
    RunStep(c, canon, sofar, Request(address, at), evicting);
    RunOk(c, canon, sofar, evicting);
    var ips := Run(c, canon, sofar, evicting).0;
    OkLater(c, ips, Clock(sofar), at);
    ServeByLevel(c, ips, ips, ip, at);
  }

  lemma LevelNonNegative(c: Config, ips: Clients, ip: string, now: real, later: real)
    requires c.Valid() && ClientsOk(c, ips, now) && now <= later
    ensures 0.0 <= LevelOf(c, ips, ip, later) <= c.burst as real
  {
    if ip in ips {
      TakeKeepsOk(c, ips[ip].bucket, later);
    }
  }

  /** Just after three minutes: long enough to be forgotten, too short to refill such a burst. */
  ghost predicate TooShort(c: Config, later: real) {
    later > INACTIVE_LIMIT && Supply(c.rate, later) < c.burst as real
  }

  lemma SomeTimeTooShort(c: Config) returns (later: real)
    requires c.Valid() && c.burst > 180 * c.rate
    ensures TooShort(c, later)
  {
    var rate := c.rate as real;
    var pause := 0.5 / rate;
    assert pause > 0.0 && rate * pause == 0.5;
    later := INACTIVE_LIMIT + pause;
    SupplyIsProduct(c.rate, pause);
    SupplyWhileIdle(c.rate, INACTIVE_LIMIT);
    SupplySum(c.rate, INACTIVE_LIMIT, pause, later);
  }

  function Idle(c: Config, address: string, later: real): seq<Event>
    requires c.Valid()
  {
    Volley(address, 0.0, c.burst) + [Cleanup(later)]
  }

  /** The burst spent at the start: nothing is left, and the client was last seen then. */
  lemma SpentAtStart(c: Config, canon: Canon, address: string, ip: string, evicting: bool)
    requires c.Valid() && canon(address) == Some(ip)
    ensures var first := Volley(address, 0.0, c.burst);
      var ips := Run(c, canon, first, evicting).0;
      && Ordered(first) && Clock(first) == 0.0
      && ip in ips && ips[ip].lastSeen == 0.0 && LevelOf(c, ips, ip, 0.0) == 0.0
  {
    var first := Volley(address, 0.0, c.burst);
    assert [] + first == first;
    VolleyDrains(c, canon, [], evicting, address, ip, 0.0, c.burst);
  }

  /** Forgotten means full again, remembered does not. */
  lemma IdleLevels(c: Config, canon: Canon, address: string, ip: string, evicting: bool, later: real)
    requires c.Valid() && TooShort(c, later) && canon(address) == Some(ip)
    ensures Ordered(Idle(c, address, later)) && Clock(Idle(c, address, later)) == later
    ensures var level := LevelOf(c, Run(c, canon, Idle(c, address, later), evicting).0, ip, later);
      if evicting then level == c.burst as real else level < c.burst as real
  {
    var first := Volley(address, 0.0, c.burst);
    SpentAtStart(c, canon, address, ip, evicting);
    RunStep(c, canon, first, Cleanup(later), evicting);
    var ips := Run(c, canon, first, evicting).0;
    if evicting {
      assert ip !in Evict(ips, later);
    } else {
      StillDrained(c, ips, ip, later);
    }
  }

  lemma StillDrained(c: Config, ips: Clients, ip: string, later: real)
    requires c.Valid() && TooShort(c, later) && LevelOf(c, ips, ip, 0.0) == 0.0
    ensures LevelOf(c, ips, ip, later) < c.burst as real
  {
    LevelOfLater(c, ips, ip, 0.0, later);
    assert later - 0.0 == later;
  }

  /** After all but one request of a burst, a token is left only if the bucket was full. */
  lemma LastToken(burst: nat, start: real, level: real)
    requires burst >= 1 && start <= burst as real && Drained(level, start, burst - 1)
    ensures level >= 1.0 <==> start == burst as real
  {
  }

  lemma SecondVolley(c: Config, canon: Canon, address: string, ip: string, evicting: bool, later: real)
    requires c.Valid() && TooShort(c, later) && canon(address) == Some(ip)
    ensures var almost := Idle(c, address, later) + Volley(address, later, c.burst - 1);
      var events := almost + [Request(address, later)];
      && Ordered(events)
      && Run(c, canon, events, evicting).1[|almost|].Some?
      && Run(c, canon, events, evicting).1[|almost|].value.Allowed? == evicting
  {
    var idle := Idle(c, address, later);
    var almost := idle + Volley(address, later, c.burst - 1);
    IdleLevels(c, canon, address, ip, evicting, later);
    VolleyDrains(c, canon, idle, evicting, address, ip, later, c.burst - 1);
    assert c.burst == 1 ==> almost == idle;
    var start := LevelOf(c, Run(c, canon, idle, evicting).0, ip, later);
    LastToken(c.burst, start, LevelOf(c, Run(c, canon, almost, evicting).0, ip, later));
    OneMore(c, canon, almost, evicting, address, ip, later);
  }

  /** Spend the burst, be forgotten just after three minutes, and spend it again. */
  lemma EvictionVisible(c: Config, canon: Canon, address: string) returns (events: seq<Event>)
    requires c.Valid() && c.burst > 180 * c.rate && canon(address).Some?
    ensures Ordered(events)
    ensures Run(c, canon, events, true).1 != Run(c, canon, events, false).1
  {
    var later := SomeTimeTooShort(c);
    SecondVolley(c, canon, address, canon(address).value, true, later);
    SecondVolley(c, canon, address, canon(address).value, false, later);
    events := Idle(c, address, later) + Volley(address, later, c.burst - 1) + [Request(address, later)];
  }

  /** Eviction is invisible in every run exactly when three minutes refill the whole burst. */
  lemma EvictionInvisibleIff(c: Config, canon: Canon, address: string)
    requires c.Valid() && canon(address).Some?
    ensures (forall events :: Ordered(events) ==> Run(c, canon, events, true).1 == Run(c, canon, events, false).1)
      <==> c.burst <= 180 * c.rate
  {
    if c.burst <= 180 * c.rate {
      forall events | Ordered(events)
        ensures Run(c, canon, events, true).1 == Run(c, canon, events, false).1
      {
        RunsAgree(c, canon, events);
      }
    } else {
      var events := EvictionVisible(c, canon, address);
    }
  }

  // ---- the admissions of one address in a window ----

  predicate Counts(canon: Canon, e: Event, answer: Option<Answer>, ip: string, from: real, to: real) {
    e.Request? && canon(e.address) == Some(ip) && from <= e.at <= to && answer.Some? && answer.value.Allowed?
  }

  function Admitted(
      canon: Canon, events: seq<Event>, answers: seq<Option<Answer>>, ip: string, from: real, to: real): nat
    requires |answers| == |events|
  {
    if events == [] then 0
    else
      var n := |events| - 1;
      Admitted(canon, events[..n], answers[..n], ip, from, to)
      + if Counts(canon, events[n], answers[n], ip, from, to) then 1 else 0
  }

  /** Waiting adds to the level no more than to the allowance. */
  lemma WindowWait(c: Config, ips: Clients, ip: string, n: nat, now: real, later: real, from: real)
    requires c.Valid() && from <= now <= later
    requires n as real + LevelOf(c, ips, ip, now) <= Allowance(c, from, now)
    ensures n as real + LevelOf(c, ips, ip, later) <= Allowance(c, from, later)
  {
    LevelOfLater(c, ips, ip, now, later);
    SupplySum(c.rate, now - from, later - now, later - from);
  }

  /** A step moves a token at most from the level to the admissions. */
  lemma WindowStep(
      c: Config, canon: Canon, ips: Clients, e: Event, evicting: bool, ip: string, n: nat,
      from: real, to: real, k: real)
    requires c.Valid() && (evicting ==> c.burst <= 180 * c.rate) && ClientsOk(c, ips, e.at)
    requires n as real + LevelOf(c, ips, ip, e.at) <= k
    ensures var (ips', answer) := if e.Cleanup? && !evicting then (ips, None) else Apply(c, canon, ips, e);
      (n + if Counts(canon, e, answer, ip, from, to) then 1 else 0) as real + LevelOf(c, ips', ip, e.at) <= k
  {
    if e.Cleanup? {
      if evicting {
        EvictKeepsLevels(c, ips, e.at, ip);
      }
    } else if canon(e.address).Some? {
      ServeByLevel(c, ips, ips, canon(e.address).value, e.at);
    }
  }

  /** The burst, and what the rate supplies from one time to another. */
  function Allowance(c: Config, from: real, now: real): real {
    c.burst as real + Supply(c.rate, now - from)
  }

  lemma AllowanceGrows(c: Config, from: real, now: real, to: real)
    requires c.Valid() && from <= now <= to
    ensures c.burst as real <= Allowance(c, from, now) <= Allowance(c, from, to)
  {
    SupplySign(c.rate, now - from);
    SupplySign(c.rate, to - now);
    SupplySum(c.rate, now - from, to - now, to - from);
  }

  ghost predicate WindowOk(c: Config, ips: Clients, ip: string, n: nat, now: real, from: real, to: real) {
    && n as real <= Allowance(c, from, to)
    && (now < from ==> n == 0)
    && (from <= now <= to ==> n as real + LevelOf(c, ips, ip, now) <= Allowance(c, from, now))
  }

  lemma WindowEnter(c: Config, ips: Clients, ip: string, n: nat, now: real, later: real, from: real, to: real)
    requires c.Valid() && ClientsOk(c, ips, now) && now <= later && from <= later <= to
    requires WindowOk(c, ips, ip, n, now, from, to)
    ensures n as real + LevelOf(c, ips, ip, later) <= Allowance(c, from, later)
  {
    if now < from {
      LevelNonNegative(c, ips, ip, now, later);
      AllowanceGrows(c, from, later, to);
    } else {
      WindowWait(c, ips, ip, n, now, later, from);
    }
  }

  lemma {:induction false} WindowInvariant(
      c: Config, canon: Canon, events: seq<Event>, evicting: bool, ip: string, from: real, to: real)
    requires c.Valid() && Ordered(events) && from <= to && (evicting ==> c.burst <= 180 * c.rate)
    ensures var (ips, answers) := Run(c, canon, events, evicting);
      WindowOk(c, ips, ip, Admitted(canon, events, answers, ip, from, to), Clock(events), from, to)
  {
    if events == [] {
      AllowanceGrows(c, from, to, to);
      if from <= 0.0 <= to {
        AllowanceGrows(c, from, 0.0, to);
      }
    } else {
      var init, last := events[..|events| - 1], events[|events| - 1];
      WindowInvariant(c, canon, init, evicting, ip, from, to);
      RunOk(c, canon, init, evicting);
      RunOk(c, canon, events, evicting);
      var ips, answers := Run(c, canon, init, evicting).0, Run(c, canon, init, evicting).1;
      assert Run(c, canon, events, evicting).1[..|init|] == answers;
      var n := Admitted(canon, init, answers, ip, from, to);
      if from <= last.at <= to {
        WindowEnter(c, ips, ip, n, Clock(init), last.at, from, to);
        OkLater(c, ips, Clock(init), last.at);
        WindowStep(c, canon, ips, last, evicting, ip, n, from, to, Allowance(c, from, last.at));
        LevelNonNegative(c, Run(c, canon, events, evicting).0, ip, last.at, last.at);
        AllowanceGrows(c, from, last.at, to);
      }
    }
  }

  lemma WindowAdmitted(c: Config, canon: Canon, events: seq<Event>, ip: string, from: real, to: real)
    requires c.Valid() && c.burst <= 180 * c.rate && Ordered(events) && from <= to
    ensures Admitted(canon, events, Run(c, canon, events, true).1, ip, from, to) as real <= Allowance(c, from, to)
  {
    var ips, answers := Run(c, canon, events, true).0, Run(c, canon, events, true).1;
    var n := Admitted(canon, events, answers, ip, from, to);
    WindowInvariant(c, canon, events, true, ip, from, to);
    assert WindowOk(c, ips, ip, n, Clock(events), from, to);
  }

  lemma AllowanceIs(c: Config, from: real, to: real)
    requires c.Valid()
    ensures Allowance(c, from, to) == c.burst as real + c.rate as real * (to - from)
  {
    SupplyIsProduct(c.rate, to - from);
  }

  /** In any window an address is admitted at most the burst and what the rate supplies in the meantime. */
  lemma WindowBound(c: Config, canon: Canon, events: seq<Event>, ip: string, from: real, to: real)
    requires c.Valid() && c.burst <= 180 * c.rate && Ordered(events) && from <= to
    ensures Admitted(canon, events, Run(c, canon, events, true).1, ip, from, to) as real
      <= c.burst as real + c.rate as real * (to - from)
  {
    WindowAdmitted(c, canon, events, ip, from, to);
    AllowanceIs(c, from, to);
  }

  // ---- waiting as told ----

  ghost predicate NoRequestOf(canon: Canon, events: seq<Event>, ip: string) {
    forall i :: 0 <= i < |events| && events[i].Request? ==> canon(events[i].address) != Some(ip)
  }

  /** Other addresses' requests, and clean-ups, leave an address's level to the time alone. */
  lemma {:induction false} QuietLevel(
      c: Config, canon: Canon, before: seq<Event>, quiet: seq<Event>, ip: string, later: real)
    requires c.Valid() && c.burst <= 180 * c.rate
    requires Ordered(before + quiet) && Ordered(before) && NoRequestOf(canon, quiet, ip)
    requires Clock(before) <= Clock(before + quiet) <= later
    ensures LevelOf(c, Run(c, canon, before + quiet, true).0, ip, later) ==
            LevelOf(c, Run(c, canon, before, true).0, ip, later)
  {
    if quiet == [] {
      assert before + quiet == before;
    } else {
      var init, last := quiet[..|quiet| - 1], quiet[|quiet| - 1];
      QuietPrefix(canon, before, quiet, ip);
      QuietLevel(c, canon, before, init, ip, later);
      QuietEvent(c, canon, before + init, last, ip, later);
    }
  }

  lemma {:induction false} QuietEvent(
      c: Config, canon: Canon, sofar: seq<Event>, last: Event, ip: string, later: real)
    requires c.Valid() && c.burst <= 180 * c.rate
    requires Ordered(sofar) && Clock(sofar) <= last.at <= later
    requires last.Request? ==> canon(last.address) != Some(ip)
    ensures LevelOf(c, Run(c, canon, sofar + [last], true).0, ip, later) ==
            LevelOf(c, Run(c, canon, sofar, true).0, ip, later)
  {
    RunOk(c, canon, sofar, true);
    RunStep(c, canon, sofar, last, true);
    QuietStep(c, canon, Run(c, canon, sofar, true).0, last, Clock(sofar), ip, later);
  }

  lemma {:induction false} QuietPrefix(canon: Canon, before: seq<Event>, quiet: seq<Event>, ip: string)
    requires quiet != [] && Ordered(before + quiet) && Ordered(before) && NoRequestOf(canon, quiet, ip)
    requires Clock(before) <= Clock(before + quiet)
    ensures var init, last := quiet[..|quiet| - 1], quiet[|quiet| - 1];
      && before + quiet == (before + init) + [last] && Clock(before + quiet) == last.at
      && Ordered(before + init) && Clock(before) <= Clock(before + init) <= last.at
      && NoRequestOf(canon, init, ip) && (last.Request? ==> canon(last.address) != Some(ip))
  {
    var init, last := quiet[..|quiet| - 1], quiet[|quiet| - 1];
    assert before + quiet == (before + init) + [last];
    assert ((before + init) + [last])[..|before + init|] == before + init;
    if init != [] {
      ClockGrows(before, init);
    } else {
      assert before + init == before;
    }
  }

  lemma {:induction false} ClockGrows(before: seq<Event>, more: seq<Event>)
    requires Ordered(before + more)
    ensures Clock(before) <= Clock(before + more)
  {
    if more == [] {
      assert before + more == before;
    } else {
      var init := more[..|more| - 1];
      assert (before + more)[..|before + more| - 1] == before + init;
      ClockGrows(before, init);
    }
  }

  lemma QuietStep(c: Config, canon: Canon, ips: Clients, e: Event, clock: real, ip: string, later: real)
    requires c.Valid() && c.burst <= 180 * c.rate && ClientsOk(c, ips, clock) && clock <= e.at <= later
    requires e.Request? ==> canon(e.address) != Some(ip)
    ensures LevelOf(c, Apply(c, canon, ips, e).0, ip, later) == LevelOf(c, ips, ip, later)
  {
    OkLater(c, ips, clock, e.at);
    var after := Apply(c, canon, ips, e).0;
    if e.Cleanup? {
      EvictKeepsLevels(c, ips, e.at, ip);
    } else if canon(e.address).Some? {
      ServeByLevel(c, ips, ips, canon(e.address).value, e.at);
    }
    LevelOfLater(c, ips, ip, e.at, later);
    LevelOfLater(c, after, ip, e.at, later);
  }

  lemma {:induction false} SupplyAtLeastTime(rate: int, t: real)
    requires rate >= 1 && t >= 0.0
    ensures Supply(rate, t) >= t
    decreases rate
  {
    if rate > 1 { SupplyAtLeastTime(rate - 1, t); }
  }

  /** At one token a second or more, the wait for a token is at most the whole seconds that the refusal names. */
  lemma WaitIsEnough(c: Config, deficit: real)
    requires c.Valid() && c.Exact() && 0.0 <= deficit <= 1.0
    ensures c.wait(deficit) <= Max(1, c.wait(deficit).Floor) as real
    ensures Supply(c.rate, Max(1, c.wait(deficit).Floor) as real) >= deficit
  {
    var wait := c.wait(deficit);
    SupplyAtLeastTime(c.rate, wait);
    var told := Max(1, wait.Floor) as real;
    SupplySum(c.rate, wait, told - wait, told);
    SupplySign(c.rate, told - wait);
  }

  /** An address that was refused, waits as told and sends nothing meanwhile is admitted, whatever others do. */
  lemma {:induction false} RetryIsAdmitted(
      c: Config, canon: Canon, before: seq<Event>, address: string, ip: string, now: real, quiet: seq<Event>,
      retryAfter: int)
    requires c.Valid() && c.Exact() && c.burst <= 180 * c.rate && canon(address) == Some(ip)
    requires Ordered(before) && Clock(before) <= now
    requires Run(c, canon, before + [Request(address, now)], true).1[|before|] == Some(Denied(retryAfter))
    requires NoRequestOf(canon, quiet, ip) && Ordered(before + [Request(address, now)] + quiet)
    requires Clock(before + [Request(address, now)] + quiet) <= now + retryAfter as real
    ensures var events := before + [Request(address, now)] + quiet + [Request(address, now + retryAfter as real)];
      var answer := Run(c, canon, events, true).1[|events| - 1];
      Ordered(events) && answer.Some? && answer.value.Allowed?
  {
    TokenIsThere(c, canon, before, address, ip, now, quiet, retryAfter);
    LastIsAdmitted(c, canon, before + [Request(address, now)] + quiet, address, ip, now + retryAfter as real);
  }

  /** When the told time is over, the address has its token. */
  lemma {:induction false} TokenIsThere(
      c: Config, canon: Canon, before: seq<Event>, address: string, ip: string, now: real, quiet: seq<Event>,
      retryAfter: int)
    requires c.Valid() && c.Exact() && c.burst <= 180 * c.rate && canon(address) == Some(ip)
    requires Ordered(before) && Clock(before) <= now
    requires Run(c, canon, before + [Request(address, now)], true).1[|before|] == Some(Denied(retryAfter))
    requires NoRequestOf(canon, quiet, ip) && Ordered(before + [Request(address, now)] + quiet)
    requires Clock(before + [Request(address, now)] + quiet) <= now + retryAfter as real
    ensures LevelOf(
      c, Run(c, canon, before + [Request(address, now)] + quiet, true).0, ip, now + retryAfter as real) >= 1.0
  {
    var refused := before + [Request(address, now)];
    RefusedLevel(c, canon, before, address, ip, now, retryAfter);
    ClockGrows(refused, quiet);
    QuietLevel(c, canon, refused, quiet, ip, now + retryAfter as real);
  }

  lemma {:induction false} LastIsAdmitted(
      c: Config, canon: Canon, sofar: seq<Event>, address: string, ip: string, at: real)
    requires c.Valid() && Ordered(sofar) && Clock(sofar) <= at && canon(address) == Some(ip)
    requires LevelOf(c, Run(c, canon, sofar, true).0, ip, at) >= 1.0
    ensures var events := sofar + [Request(address, at)];
      var answer := Run(c, canon, events, true).1[|events| - 1];
      Ordered(events) && answer.Some? && answer.value.Allowed?
  {
    OneMore(c, canon, sofar, true, address, ip, at);
  }

  lemma {:induction false} RefusedLevel(
      c: Config, canon: Canon, before: seq<Event>, address: string, ip: string, now: real, retryAfter: int)
    requires c.Valid() && c.Exact() && canon(address) == Some(ip) && Ordered(before) && Clock(before) <= now
    requires Run(c, canon, before + [Request(address, now)], true).1[|before|] == Some(Denied(retryAfter))
    ensures LevelOf(c, Run(c, canon, before + [Request(address, now)], true).0, ip, now + retryAfter as real) >= 1.0
    ensures retryAfter >= 1
    ensures Ordered(before + [Request(address, now)]) && Clock(before + [Request(address, now)]) == now
  {
    var ips := Run(c, canon, before, true).0;
    RunStep(c, canon, before, Request(address, now), true);
    OneMore(c, canon, before, true, address, ip, now);
    LevelNonNegativeIn(c, canon, before, ip, now);
    TokenWhenTold(c, ips, ip, now, retryAfter);
  }

  lemma {:induction false} TokenWhenTold(c: Config, ips: Clients, ip: string, now: real, retryAfter: int)
    requires c.Valid() && c.Exact() && 0.0 <= LevelOf(c, ips, ip, now) < 1.0
    requires ServeIp(c, ips, ip, now).1 == Denied(retryAfter)
    requires LevelOf(c, ServeIp(c, ips, ip, now).0, ip, now) == LevelOf(c, ips, ip, now)
    ensures retryAfter >= 1
    ensures LevelOf(c, ServeIp(c, ips, ip, now).0, ip, now + retryAfter as real) >= 1.0
  {
    var b := ClientAt(c, ips, ip, now).bucket;
    var level := LevelOf(c, ips, ip, now);
    SupplySign(c.rate, now - now);
    assert Level(c, b, now) == level;
    RefusedUntil(c, b, now);
    WaitIsEnough(c, 1.0 - level);
    LevelOfLater(c, ServeIp(c, ips, ip, now).0, ip, now, now + retryAfter as real);
  }

  lemma LevelNonNegativeIn(c: Config, canon: Canon, before: seq<Event>, ip: string, now: real)
    requires c.Valid() && Ordered(before) && Clock(before) <= now
    ensures 0.0 <= LevelOf(c, Run(c, canon, before, true).0, ip, now) <= c.burst as real
  {
    RunOk(c, canon, before, true);
    LevelNonNegative(c, Run(c, canon, before, true).0, ip, Clock(before), now);
  }

  // ---- the limiter itself ----

  class IPRateLimiter {
    var ips: Clients
    const config: Config
    const canon: Canon

    constructor (config: Config, canon: Canon)
      ensures this.config == config && this.canon == canon && ips == map[]
    {
      this.config, this.canon, this.ips := config, canon, map[];
    }

    /** A new client gets a full bucket; a known one is seen again. */
    method GetLimiter(ip: string, now: real) returns (bucket: Bucket)
      modifies this
      ensures ips == old(ips)[ip := ClientAt(config, old(ips), ip, now)]
      ensures bucket == ips[ip].bucket
    {
      if ip !in ips {
        ips := ips[ip := Client(Full(config, now), now)];
      } else {
        ips := ips[ip := ips[ip].(lastSeen := now)];
      }
      bucket := ips[ip].bucket;
    }

    /** The handler's use of the bucket: Allow, or peek at the next token without consuming it. */
    method TakeToken(bucket: Bucket, now: real) returns (after: Bucket, answer: Answer)
      requires config.Valid()
      ensures (after, answer) == Take(config, bucket, now)
    {
      var level := Level(config, bucket, now);
      if level < 1.0 {
        var (reserved, reservation) := Reserve(config, bucket, now);
        var delay := reservation.timeToAct - now;
        after := Cancel(config, reserved, reservation, now);
        answer := Denied(Max(1, delay.Floor));
      } else {
        after := Bucket(level - 1.0, now, now);
        answer := Allowed((level - 1.0).Floor);
      }
    }

    method Serve(address: string, now: real) returns (answer: Answer)
      requires config.Valid()
      modifies this
      ensures (ips, Some(answer)) == Apply(config, canon, old(ips), Request(address, now))
      // a malformed address changes nothing, and any other is a request of its canonical form alone
      ensures answer.BadRequest? <==> canon(address).None?
      ensures answer.BadRequest? ==> ips == old(ips)
      ensures canon(address).Some? ==>
        && canon(address).value in ips && ips[canon(address).value].lastSeen == now
        && forall ip :: ip != canon(address).value ==>
             (ip in ips <==> ip in old(ips)) && (ip in ips ==> ips[ip] == old(ips)[ip])
    {
      var canonical := canon(address);
      if canonical.None? {
        return BadRequest;
      }
      var bucket := GetLimiter(canonical.value, now);
      var after;
      after, answer := TakeToken(bucket, now);
      ips := ips[canonical.value := Client(after, now)];
      assert ips == old(ips)[canonical.value := Client(after, now)];
    }

    method Cleanup(now: real)
      modifies this
      ensures ips == Evict(old(ips), now)
      // three minutes without a request
      ensures forall ip :: ip in ips <==> ip in old(ips) && now - old(ips)[ip].lastSeen <= 180.0
      ensures forall ip :: ip in ips ==> ips[ip] == old(ips)[ip]
    {
      var rest := ips.Keys;
      while rest != {}
        invariant rest <= old(ips).Keys
        invariant ips == EvictAllBut(old(ips), now, rest)
        decreases rest
      {
        var ip := Pick(rest);
        rest := rest - {ip};
        if now - ips[ip].lastSeen > INACTIVE_LIMIT {
          ips := ips - {ip};
        }
      }
    }
  }
}
