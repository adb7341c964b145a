/**
 Visitor counts by country (internal/middleware/geostats.go). Record and cleanup hold the lock for their whole
 effect, so any interleaving is a sequence of them; only cleanup reads its clock before it has the lock.
 */
module GeoStats {
  import opened Prelude
  import opened Ranking

  /** 24 hours, in seconds. */
  const VALIDITY := 86400

  const UNKNOWN_COUNTRY := "XX"

  datatype Stats = Stats(visitors: map<string, int>, countries: map<string, int>)

  /**
   A visit reads the clock twice under the lock: to compare, and to store. A clean-up takes its cut-off from
   `clock`, and gets the lock at `at`.
   */
  datatype Event = Visit(ip: string, country: string, seen: int, stamp: int) | Cleanup(clock: int, at: int) {
    predicate Valid() {
      match this
      case Visit(_, _, seen, stamp) => seen <= stamp
      case Cleanup(clock, at) => clock <= at
    }

    function Begin(): int {
      match this
      case Visit(_, _, seen, _) => seen
      case Cleanup(_, at) => at
    }

    function End(): int {
      match this
      case Visit(_, _, _, stamp) => stamp
      case Cleanup(_, at) => at
    }

    function Code(): string
      requires Visit?
    {
      if country == "" then UNKNOWN_COUNTRY else country
    }
  }

  function CountOf(countries: map<string, int>, code: string): int {
    if code in countries then countries[code] else 0
  }

  function Stale(visitors: map<string, int>, clock: int): map<string, int> {
    map ip | ip in visitors && !(visitors[ip] < clock - VALIDITY) :: visitors[ip]
  }

  /** Whether a visit at this time is counted. */
  predicate Counted(visitors: map<string, int>, ip: string, seen: int) {
    ip in visitors ==> seen - visitors[ip] > VALIDITY
  }

  function Step(s: Stats, e: Event): Stats {
    match e
    case Cleanup(clock, _) => s.(visitors := Stale(s.visitors, clock))
    case Visit(ip, _, seen, stamp) =>
      if ip == "" then s
      else
        Stats(s.visitors[ip := stamp],
              if Counted(s.visitors, ip, seen) then s.countries[e.Code() := CountOf(s.countries, e.Code()) + 1]
              else s.countries)
  }

  function Run(events: seq<Event>): Stats {
    if events == [] then Stats(map[], map[]) else Step(Run(events[..|events| - 1]), events[|events| - 1])
  }

  /** Each event begins after the one before has ended: a clock that never goes back. */
  ghost predicate Ordered(events: seq<Event>) {
    && (forall i :: 0 <= i < |events| ==> events[i].Valid())
    && (forall i, j :: 0 <= i < j < |events| ==> events[i].End() <= events[j].Begin())
  }

  // ---- what the counts mean, said of the log of visits alone ----

  predicate IsVisitBy(e: Event, ip: string) {
    e.Visit? && e.ip == ip && ip != ""
  }

  /** A first visit, or a return after more than 24 hours. */
  predicate IsNew(events: seq<Event>, i: nat)
    requires i < |events|
  {
    && events[i].Visit?
    && events[i].ip != ""
    && forall j :: 0 <= j < i && IsVisitBy(events[j], events[i].ip) ==>
         events[i].seen - events[j].stamp > 24 * 60 * 60
  }

  ghost function NewVisits(events: seq<Event>): set<int> {
    set i | 0 <= i < |events| && IsNew(events, i)
  }

  /** A visit counts for its own country, and for "XX" when it comes without one. */
  predicate IsFrom(e: Event, code: string) {
    e.Visit? && (if e.country == "" then code == "XX" else code == e.country)
  }

  ghost function NewVisitsFrom(events: seq<Event>, code: string): set<int> {
    set i | 0 <= i < |events| && IsNew(events, i) && IsFrom(events[i], code)
  }

  /** What the visitor map knows about an address: its last visit, unless that is more than 24 hours ago. */
  ghost predicate Remembers(visitors: map<string, int>, events: seq<Event>, ip: string, now: int) {
    && (ip in visitors ==> exists j :: 0 <= j < |events| && IsVisitBy(events[j], ip) && events[j].stamp == visitors[ip])
    && forall j :: 0 <= j < |events| && IsVisitBy(events[j], ip) && now - events[j].stamp <= VALIDITY
         ==> ip in visitors && events[j].stamp <= visitors[ip]
  }

  ghost predicate RemembersAll(visitors: map<string, int>, events: seq<Event>, now: int) {
    forall ip :: Remembers(visitors, events, ip, now)
  }

  lemma RemembersLater(visitors: map<string, int>, events: seq<Event>, now: int, later: int)
    requires RemembersAll(visitors, events, now) && now <= later
    ensures RemembersAll(visitors, events, later)
  {
    forall ip ensures Remembers(visitors, events, ip, later) {
      assert Remembers(visitors, events, ip, now);
    }
  }

  /** Forgetting entries older than a cut-off, however early it was read, keeps what matters. */
  lemma CleanupRemembers(visitors: map<string, int>, events: seq<Event>, e: Event)
    requires e.Cleanup? && e.Valid() && RemembersAll(visitors, events, e.at)
    ensures RemembersAll(Stale(visitors, e.clock), events + [e], e.at)
  {
    forall ip ensures Remembers(Stale(visitors, e.clock), events + [e], ip, e.at) {
      assert Remembers(visitors, events, ip, e.at);
      if ip in visitors {
        var j :| 0 <= j < |events| && IsVisitBy(events[j], ip) && events[j].stamp == visitors[ip];
        assert (events + [e])[j] == events[j];
      }
    }
  }

  lemma VisitRemembers(visitors: map<string, int>, events: seq<Event>, e: Event)
    requires e.Visit? && e.Valid() && e.ip != "" && Ordered(events + [e])
    requires RemembersAll(visitors, events, e.seen)
    ensures RemembersAll(visitors[e.ip := e.stamp], events + [e], e.stamp)
  {
    var after := events + [e];
    forall j | 0 <= j < |events| ensures after[j] == events[j] && events[j].End() <= e.seen {
      assert after[j].End() <= after[|events|].Begin();
    }
    assert after[|events|] == e;
    var newer := visitors[e.ip := e.stamp];
    forall ip ensures Remembers(newer, after, ip, e.stamp) {
      assert Remembers(visitors, events, ip, e.seen);
      if ip != e.ip && ip in visitors {
        var j :| 0 <= j < |events| && IsVisitBy(events[j], ip) && events[j].stamp == visitors[ip];
        assert IsVisitBy(after[j], ip);
      }
    }
  }

  /** The visitor map and the log agree on whether the next visit is new. */
  lemma CountedIsNew(visitors: map<string, int>, events: seq<Event>, e: Event)
    requires e.Visit? && e.ip != "" && RemembersAll(visitors, events, e.seen)
    ensures Counted(visitors, e.ip, e.seen) <==> IsNew(events + [e], |events|)
  {
    var after := events + [e];
    assert Remembers(visitors, events, e.ip, e.seen);
    assert forall j :: 0 <= j < |events| ==> after[j] == events[j];
    if e.ip in visitors {
      var j :| 0 <= j < |events| && IsVisitBy(events[j], e.ip) && events[j].stamp == visitors[e.ip];
      assert after[j] == events[j];
    }
  }

  /** Later events do not change whether a visit was new. */
  lemma IsNewStays(events: seq<Event>, e: Event, i: nat)
    requires i < |events|
    ensures IsNew(events + [e], i) <==> IsNew(events, i)
  {
    var after := events + [e];
    assert after[i] == events[i];
    assert forall j :: 0 <= j < i ==> after[j] == events[j];
  }

  lemma NewVisitsStep(events: seq<Event>, e: Event)
    ensures |NewVisits(events + [e])| == |NewVisits(events)| + if IsNew(events + [e], |events|) then 1 else 0
  {
    var after, n := events + [e], |events|;
    var before, now := NewVisits(events), NewVisits(after);
    var added := if IsNew(after, n) then {n} else {};
    forall i: int ensures i in now <==> i in before + added {
      if 0 <= i < n { IsNewStays(events, e, i); }
    }
    assert now == before + added;
  }

  lemma NewVisitsFromStep(events: seq<Event>, e: Event, code: string)
    ensures |NewVisitsFrom(events + [e], code)| == |NewVisitsFrom(events, code)|
      + if IsNew(events + [e], |events|) && IsFrom(e, code) then 1 else 0
  {
    var after, n := events + [e], |events|;
    assert after[n] == e;
    var before, now := NewVisitsFrom(events, code), NewVisitsFrom(after, code);
    var counts := IsNew(after, n) && IsFrom(e, code);
    forall i | 0 <= i < n ensures i in now <==> i in before {
      IsNewStays(events, e, i);
      assert after[i] == events[i];
    }
    assert n in now <==> counts;
    assert now == if counts then before + {n} else before;
  }

  ghost predicate CountsAre(countries: map<string, int>, events: seq<Event>) {
    && (forall code :: CountOf(countries, code) == |NewVisitsFrom(events, code)|)
    && Total(countries) == |NewVisits(events)|
  }

  lemma VisitCounts(s: Stats, events: seq<Event>, e: Event)
    requires e.Valid() && CountsAre(s.countries, events)
    requires e.Visit? && e.ip != "" ==> RemembersAll(s.visitors, events, e.seen)
    ensures CountsAre(Step(s, e).countries, events + [e])
  {
    forall code ensures CountOf(Step(s, e).countries, code) == |NewVisitsFrom(events + [e], code)| {
      NewVisitsFromStep(events, e, code);
      if e.Visit? && e.ip != "" { CountedIsNew(s.visitors, events, e); }
    }
    NewVisitsStep(events, e);
    if e.Visit? && e.ip != "" {
      CountedIsNew(s.visitors, events, e);
      TotalUpdate(s.countries, e.Code(), CountOf(s.countries, e.Code()) + 1);
    }
  }

  function Clock(events: seq<Event>): int {
    if events == [] then 0 else events[|events| - 1].End()
  }

  /**
   In every run of visits and clean-ups, each country's count is the number of its first visits and returns after
   more than 24 hours, and the counts sum to the number of all such visits.
   */
  lemma {:induction false} CountsAreVisits(events: seq<Event>)
    requires Ordered(events)
    ensures CountsAre(Run(events).countries, events)
    ensures RemembersAll(Run(events).visitors, events, Clock(events))
  {
    if events != [] {
      var init, e := events[..|events| - 1], events[|events| - 1];
      assert events == init + [e];
      OrderedPrefix(events);
      CountsAreVisits(init);
      var s := Run(init);
      RemembersStart(s.visitors, init, e);
      VisitCounts(s, init, e);
      match e
      case Cleanup(_, _) => CleanupRemembers(s.visitors, init, e);
      case Visit(ip, _, _, stamp) =>
        if ip == "" {
          NobodyRemembers(s.visitors, init, e);
        } else {
          VisitRemembers(s.visitors, init, e);
        }
    }
  }

  lemma RemembersStart(visitors: map<string, int>, events: seq<Event>, e: Event)
    requires e.Valid() && RemembersAll(visitors, events, Clock(events))
    requires if events == [] then visitors == map[] else Clock(events) <= e.Begin()
    ensures RemembersAll(visitors, events, e.Begin())
  {
    if events != [] {
      RemembersLater(visitors, events, Clock(events), e.Begin());
    } else {
      assert forall ip :: Remembers(visitors, events, ip, e.Begin());
    }
  }

  lemma NobodyRemembers(visitors: map<string, int>, events: seq<Event>, e: Event)
    requires e.Visit? && e.ip == "" && e.Valid() && RemembersAll(visitors, events, e.seen)
    ensures RemembersAll(visitors, events + [e], e.stamp)
  {
    RemembersLater(visitors, events, e.seen, e.stamp);
    forall ip ensures Remembers(visitors, events + [e], ip, e.stamp) {
      assert Remembers(visitors, events, ip, e.stamp);
      if ip in visitors {
        var j :| 0 <= j < |events| && IsVisitBy(events[j], ip) && events[j].stamp == visitors[ip];
        assert (events + [e])[j] == events[j];
      }
    }
  }

  // ---- the clean-up loop changes no count ----

  function Visits(events: seq<Event>): (r: seq<Event>) {
    if events == [] then []
    else Visits(events[..|events| - 1]) + if events[|events| - 1].Visit? then [events[|events| - 1]] else []
  }

  /** The two visitor maps differ only in addresses whose next visit counts in either. */
  ghost predicate SameCounts(visitors: map<string, int>, all: map<string, int>, now: int) {
    && (forall ip :: ip in visitors ==> ip in all && all[ip] == visitors[ip])
    && (forall ip :: ip in all && ip !in visitors ==> now - all[ip] > VALIDITY)
  }

  lemma SameCountsLater(s: Stats, all: Stats, now: int, later: int)
    requires s.countries == all.countries && SameCounts(s.visitors, all.visitors, now) && now <= later
    ensures SameCounts(s.visitors, all.visitors, later)
  {
  }

  lemma SameCountsStep(s: Stats, all: Stats, e: Event)
    requires e.Valid() && s.countries == all.countries && SameCounts(s.visitors, all.visitors, e.Begin())
    ensures var all' := if e.Visit? then Step(all, e) else all;
      Step(s, e).countries == all'.countries && SameCounts(Step(s, e).visitors, all'.visitors, e.End())
  {
  }

  lemma {:induction false} VisitsStep(events: seq<Event>)
    requires events != []
    ensures var init, e := events[..|events| - 1], events[|events| - 1];
      Run(Visits(events)) == if e.Visit? then Step(Run(Visits(init)), e) else Run(Visits(init))
  {
    var init, e := events[..|events| - 1], events[|events| - 1];
    if e.Visit? {
      assert Visits(events) == Visits(init) + [e];
      assert Visits(events)[..|Visits(init)|] == Visits(init);
    } else {
      assert Visits(events) == Visits(init);
    }
  }

  /** A run with clean-ups at any moments counts what the run without them counts. */
  lemma {:induction false} CleanupInvisible(events: seq<Event>)
    requires Ordered(events)
    ensures Run(events).countries == Run(Visits(events)).countries
    ensures events != [] ==> SameCounts(Run(events).visitors, Run(Visits(events)).visitors, Clock(events))
  {
    if events != [] {
      var init, e := events[..|events| - 1], events[|events| - 1];
      OrderedPrefix(events);
      CleanupInvisible(init);
      var s, all := Run(init), Run(Visits(init));
      if init != [] {
        SameCountsLater(s, all, Clock(init), e.Begin());
      }
      SameCountsStep(s, all, e);
      VisitsStep(events);
    }
  }

  lemma OrderedPrefix(events: seq<Event>)
    requires Ordered(events) && events != []
    ensures var init := events[..|events| - 1];
      Ordered(init) && (init != [] ==> Clock(init) <= events[|events| - 1].Begin())
  {
    var init := events[..|events| - 1];
    if init != [] { assert init[|init| - 1] == events[|init| - 1]; }
  }

  // ---- sums over a map ----

  ghost function Total(m: map<string, int>): int
    decreases |m|
  {
    if m == map[] then 0 else var k :| k in m; m[k] + Total(m - {k})
  }

  lemma {:induction false} TotalWithout(m: map<string, int>, k: string)
    requires k in m
    ensures Total(m) == m[k] + Total(m - {k})
    decreases |m|
  {
    var first :| first in m && Total(m) == m[first] + Total(m - {first});
    if first != k {
      TotalWithout(m - {first}, k);
      TotalWithout(m - {k}, first);
      assert m - {first} - {k} == m - {k} - {first};
    }
  }

  lemma TotalUpdate(m: map<string, int>, k: string, v: int)
    ensures Total(m[k := v]) == Total(m) - CountOf(m, k) + v
  {
    TotalWithout(m[k := v], k);
    assert m[k := v] - {k} == m - {k};
    if k in m { TotalWithout(m, k); } else { assert m - {k} == m; }
  }

  // ---- the ranking ----

  datatype CountryStat = CountryStat(code: string, count: int)

  function ByCount(): CountryStat -> int {
    (stat: CountryStat) => stat.count
  }

  predicate Distinct(s: seq<CountryStat>) {
    forall i, j :: 0 <= i < j < |s| ==> s[i].code != s[j].code
  }

  predicate Truthful(s: seq<CountryStat>, countries: map<string, int>) {
    forall i :: 0 <= i < |s| ==> s[i].code in countries && s[i].count == countries[s[i].code]
  }

  predicate Lists(s: seq<CountryStat>, code: string) {
    exists i :: 0 <= i < |s| && s[i].code == code
  }

  ghost predicate NoneOmittedAbove(s: seq<CountryStat>, countries: map<string, int>) {
    forall code, i :: code in countries && !Lists(s, code) && 0 <= i < |s| ==> countries[code] <= s[i].count
  }

  /** The first n of the countries in descending order. */
  ghost predicate TopOf(s: seq<CountryStat>, countries: map<string, int>, n: int) {
    && Ranked(s, ByCount()) && Distinct(s) && Truthful(s, countries)
    && |s| == (if n < 1 then 0 else if n < |countries| then n else |countries|)
    && (n >= 1 ==> NoneOmittedAbove(s, countries))
  }

  /** The counts of a ranking are determined, whatever order the map was read in. */
  lemma TopCountsDetermined(r: seq<CountryStat>, s: seq<CountryStat>, countries: map<string, int>, n: int, k: nat)
    requires TopOf(r, countries, n) && TopOf(s, countries, n) && k < |r|
    ensures r[k].count == s[k].count
  {
    TopCountAtLeast(r, s, countries, n, k);
    TopCountAtLeast(s, r, countries, n, k);
  }

  /** A country that outranks position k of a ranking stands before it. */
  lemma StandsBefore(r: seq<CountryStat>, countries: map<string, int>, n: int, k: nat, code: string)
    requires TopOf(r, countries, n) && k < |r| && code in countries && countries[code] > r[k].count
    ensures exists j :: 0 <= j < k && r[j].code == code
  {
    assert Lists(r, code);
    var j :| 0 <= j < |r| && r[j].code == code;
    assert j < k;
  }

  lemma AllStandBefore(r: seq<CountryStat>, s: seq<CountryStat>, countries: map<string, int>, n: int, k: nat)
    requires TopOf(r, countries, n) && TopOf(s, countries, n) && k < |r| && r[k].count < s[k].count
    ensures Codes(s, k + 1) <= Codes(r, k)
  {
    forall i | 0 <= i < k + 1 ensures s[i].code in Codes(r, k) {
      assert s[i].count >= s[k].count;
      StandsBefore(r, countries, n, k, s[i].code);
    }
  }

  lemma TopCountAtLeast(r: seq<CountryStat>, s: seq<CountryStat>, countries: map<string, int>, n: int, k: nat)
    requires TopOf(r, countries, n) && TopOf(s, countries, n) && k < |r|
    ensures r[k].count >= s[k].count
  {
    CodesCount(s, k + 1);
    CodesCount(r, k);
    if r[k].count < s[k].count {
      // every one of s[..k + 1] would have to be among r[..k]
      AllStandBefore(r, s, countries, n, k);
      SubsetSize(Codes(s, k + 1), Codes(r, k));
    }
  }

  ghost function Codes(s: seq<CountryStat>, k: nat): set<string>
    requires k <= |s|
  {
    set i | 0 <= i < k :: s[i].code
  }

  lemma {:induction false} CodesCount(s: seq<CountryStat>, k: nat)
    requires Distinct(s) && k <= |s|
    ensures |Codes(s, k)| == k
  {
    if k > 0 {
      CodesCount(s, k - 1);
      assert Codes(s, k) == Codes(s, k - 1) + {s[k - 1].code};
    }
  }

  lemma SortedSame(all: seq<CountryStat>, sorted: seq<CountryStat>, countries: map<string, int>)
    requires multiset(sorted) == multiset(all)
    requires Distinct(all) && Truthful(all, countries) && forall code :: code in countries ==> Lists(all, code)
    ensures Distinct(sorted) && Truthful(sorted, countries)
    ensures forall code :: code in countries ==> Lists(sorted, code)
  {
    DistinctByMultiset(all, sorted);
    forall i | 0 <= i < |sorted| ensures sorted[i] in all {
      assert sorted[i] in multiset(sorted);
    }
    forall code | code in countries ensures Lists(sorted, code) {
      var j :| 0 <= j < |all| && all[j].code == code;
      assert all[j] in multiset(all);
      var k :| 0 <= k < |sorted| && sorted[k] == all[j];
    }
  }

  lemma ListsAll(all: seq<CountryStat>, countries: map<string, int>)
    requires Distinct(all) && Truthful(all, countries) && forall code :: code in countries ==> Lists(all, code)
    ensures |all| == |countries|
  {
    CodesCount(all, |all|);
    assert Codes(all, |all|) == countries.Keys;
    assert |countries| == |countries.Keys|;
  }

  /** What a ranking's prefix leaves out ranks below it. */
  lemma OmittedBelow(sorted: seq<CountryStat>, top: seq<CountryStat>, countries: map<string, int>, code: string, i: nat)
    requires Ranked(sorted, ByCount()) && Truthful(sorted, countries) && Lists(sorted, code)
    requires |top| <= |sorted| && top == sorted[..|top|] && !Lists(top, code) && i < |top|
    ensures code in countries && countries[code] <= top[i].count
  {
    var k :| 0 <= k < |sorted| && sorted[k].code == code;
    assert k < |top| ==> top[k] == sorted[k];
  }

  lemma PrefixIsTop(sorted: seq<CountryStat>, countries: map<string, int>, n: int, top: seq<CountryStat>)
    requires n >= 1 && Ranked(sorted, ByCount()) && Distinct(sorted) && Truthful(sorted, countries)
    requires forall code :: code in countries ==> Lists(sorted, code)
    requires top == sorted[..if n < |sorted| then n else |sorted|]
    ensures TopOf(top, countries, n)
  {
    ListsAll(sorted, countries);
    forall code, i | code in countries && !Lists(top, code) && 0 <= i < |top| ensures countries[code] <= top[i].count {
      OmittedBelow(sorted, top, countries, code, i);
    }
  }

  lemma DistinctByMultiset(a: seq<CountryStat>, b: seq<CountryStat>)
    requires Distinct(a) && multiset(a) == multiset(b)
    ensures Distinct(b)
  {
    SameElements(a, b);
    assert NoRepeats(a);
    StillNoRepeats(a, b);
    forall i, j | 0 <= i < j < |b| ensures b[i].code != b[j].code {
      assert b[i] in a && b[j] in a && b[i] != b[j];
    }
  }

  class GeoStats {
    var visitors: map<string, int>
    var countries: map<string, int>

    function State(): Stats
      reads this
    {
      Stats(visitors, countries)
    }

    constructor ()
      ensures State() == Run([])
    {
      visitors := map[];
      countries := map[];
    }

    method Record(ip: string, countryCode: string, seen: int, stamp: int)
      modifies this
      ensures State() == Step(old(State()), Visit(ip, countryCode, seen, stamp))
      // only the address is remembered, and only the visit's own country can gain, by one
      ensures ip != "" ==> visitors == old(visitors)[ip := stamp]
      ensures var own := if countryCode == "" then "XX" else countryCode;
        var counts := ip != "" && (ip in old(visitors) ==> seen - old(visitors)[ip] > 24 * 60 * 60);
        && CountOf(countries, own) == CountOf(old(countries), own) + (if counts then 1 else 0)
        && forall code :: code != own ==> CountOf(countries, code) == CountOf(old(countries), code)
    {
      if ip == "" {
        return;
      }
      var code := countryCode;
      if code == "" {
        code := UNKNOWN_COUNTRY;
      }
      if ip !in visitors || seen - visitors[ip] > VALIDITY {
        countries := countries[code := CountOf(countries, code) + 1];
      }
      visitors := visitors[ip := stamp];
    }

    method CleanUp(clock: int, ghost at: int)
      modifies this`visitors
      ensures State() == Step(old(State()), Cleanup(clock, at))
      // more than 24 hours ago
      ensures forall ip :: ip in visitors <==> ip in old(visitors) && clock - old(visitors)[ip] <= 24 * 60 * 60
    {
      var cutOff := clock - VALIDITY;
      var rest := visitors.Keys;
      while rest != {}
        invariant rest <= visitors.Keys <= old(visitors).Keys
        invariant forall ip :: ip in visitors ==> visitors[ip] == old(visitors)[ip]
        invariant forall ip :: ip in old(visitors) && ip !in rest ==>
          (ip in visitors <==> !(old(visitors)[ip] < cutOff))
        decreases rest
      {
        var ip := Pick(rest);
        rest := rest - {ip};
        if visitors[ip] < cutOff {
          visitors := visitors - {ip};
        }
      }
    }

    method GetTopCountries(n: int) returns (top: seq<CountryStat>)
      ensures TopOf(top, countries, n)
    {
      if n < 1 {
        return [];
      }
      if |countries| == 0 {
        return [];
      }
      var topN := [];
      var rest := countries.Keys;
      while rest != {}
        invariant rest <= countries.Keys
        invariant Distinct(topN) && Truthful(topN, countries)
        invariant forall i :: 0 <= i < |topN| ==> topN[i].code !in rest
        invariant forall code :: code in countries && code !in rest ==> Lists(topN, code)
        decreases rest
      {
        var code := Pick(rest);
        rest := rest - {code};
        ghost var before := topN;
        topN := topN + [CountryStat(code, countries[code])];
        assert topN[|before|].code == code;
        forall c | c in countries && c !in rest ensures Lists(topN, c) {
          if c != code {
            var i :| 0 <= i < |before| && before[i].code == c;
            assert topN[i].code == c;
          }
        }
      }
      SortedSame(topN, SortStable(topN, ByCount()), countries);
      topN := SortStable(topN, ByCount());
      PrefixIsTop(topN, countries, n, topN[..if n < |topN| then n else |topN|]);
      return topN[..if n < |topN| then n else |topN|];
    }
  }
}
