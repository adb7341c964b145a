/**
 Obfuscated image paths (internal/content/assets.go): the maps between cleaned paths and name-based UUIDs, filled
 by any number of calls of Obfuscate. UUIDs follow section 5.5 of RFC 9562.
 */
module Assets {
  import opened Prelude

  /** Sixteen bytes. */
  type Uuid = seq<int>

  const NIL: Uuid := [0, 0, 0, 0, 0, 0, 0, 0, 0, 0, 0, 0, 0, 0, 0, 0]

  predicate IsUuid(u: Uuid) {
    |u| == 16 && forall i :: 0 <= i < 16 ==> 0 <= u[i] < 256
  }

  /** filepath.Clean, the first 16 bytes of the SHA-1 of a namespace and a name, and uuid.FromString. */
  datatype Library = Library(
    clean: string -> string, digest: (Uuid, string) -> Uuid, parse: string -> Option<Uuid>)
  {
    ghost predicate Sound() {
      && (forall ns, name :: IsUuid(digest(ns, name)))
      && (forall u :: IsUuid(u) ==> parse(Show(u)) == Some(u))
      && (forall s :: parse(s).Some? ==> IsUuid(parse(s).value))
    }
  }

  /** NewV5: the digest with version 5 and the RFC variant written over it. */
  function NewV5(lib: Library, ns: Uuid, name: string): Uuid {
    var d := lib.digest(ns, name);
    if |d| != 16 then NIL else d[6 := d[6] % 16 + 0x50][8 := d[8] % 64 + 0x80]
  }

  lemma V5IsUuid(lib: Library, ns: Uuid, name: string)
    requires lib.Sound()
    ensures IsUuid(NewV5(lib, ns, name)) && NewV5(lib, ns, name) != NIL
    // the version is 5 and the variant 10; all other bits are the digest's
    ensures var u, d := NewV5(lib, ns, name), lib.digest(ns, name);
      && |u| == |d| == 16 && u[6] / 16 == 5 && u[8] / 64 == 2
      && u[6] % 16 == d[6] % 16 && u[8] % 64 == d[8] % 64
      && forall i :: 0 <= i < 16 && i != 6 && i != 8 ==> u[i] == d[i]
  {
    assert IsUuid(lib.digest(ns, name));
    assert NewV5(lib, ns, name)[6] >= 0x50 && NIL[6] == 0;
  }

  // ---- the canonical text of a UUID ----

  function HexDigit(n: int): (c: char)
    requires 0 <= n < 16
    ensures '0' <= c <= '9' || 'a' <= c <= 'f'
  {
    if n < 10 then '0' + n as char else ('a' as int + n - 10) as char
  }

  function Hex(bytes: seq<int>): (s: string)
    requires forall i :: 0 <= i < |bytes| ==> 0 <= bytes[i] < 256
    ensures |s| == 2 * |bytes|
    ensures forall i :: 0 <= i < |s| ==> '0' <= s[i] <= '9' || 'a' <= s[i] <= 'f'
  {
    if bytes == [] then "" else [HexDigit(bytes[0] / 16), HexDigit(bytes[0] % 16)] + Hex(bytes[1..])
  }

  function Show(u: Uuid): (s: string)
    requires IsUuid(u)
    ensures |s| == 36
    ensures forall i :: 0 <= i < |s| ==> '0' <= s[i] <= '9' || 'a' <= s[i] <= 'f' || s[i] == '-'
    ensures s[0] != '-'
  {
    Hex(u[..4]) + "-" + Hex(u[4..6]) + "-" + Hex(u[6..8]) + "-" + Hex(u[8..10]) + "-" + Hex(u[10..])
  }

  /** What a pair of hexadecimal digits stands for. */
  function HexValue(c: char): int {
    if '0' <= c <= '9' then c as int - '0' as int else c as int - 'a' as int + 10
  }

  lemma DigitReads(n: int)
    requires 0 <= n < 16
    ensures HexValue(HexDigit(n)) == n
  {
  }

  lemma FirstByte(b: int, rest: seq<int>)
    requires 0 <= b < 256 && forall k :: 0 <= k < |rest| ==> 0 <= rest[k] < 256
    ensures var s := Hex([b] + rest); 16 * HexValue(s[0]) + HexValue(s[1]) == b && s[2..] == Hex(rest)
  {
    assert ([b] + rest)[1..] == rest;
    DigitReads(b / 16);
    DigitReads(b % 16);
  }

  /** Two digits a byte, the high one first. */
  lemma {:induction false} HexReadsBack(bytes: seq<int>, i: nat)
    requires (forall k :: 0 <= k < |bytes| ==> 0 <= bytes[k] < 256) && i < |bytes|
    ensures 16 * HexValue(Hex(bytes)[2 * i]) + HexValue(Hex(bytes)[2 * i + 1]) == bytes[i]
  {
    var rest := bytes[1..];
    assert bytes == [bytes[0]] + rest;
    FirstByte(bytes[0], rest);
    if i > 0 {
      HexReadsBack(rest, i - 1);
      assert Hex(bytes)[2..][2 * i - 2] == Hex(bytes)[2 * i] && Hex(bytes)[2..][2 * i - 1] == Hex(bytes)[2 * i + 1];
    }
  }

  lemma ShowInjective(lib: Library, u: Uuid, v: Uuid)
    requires lib.Sound() && IsUuid(u) && IsUuid(v) && Show(u) == Show(v)
    ensures u == v
  {
    assert lib.parse(Show(u)) == Some(u) && lib.parse(Show(v)) == Some(v);
  }

  // ---- the two maps ----

  datatype Maps = Maps(byPath: map<string, Uuid>, byUuid: map<Uuid, string>)

  const EMPTY := Maps(map[], map[])

  /** The write section: the maps after it, and the UUID the path has. */
  function Enter(m: Maps, path: string, u: Uuid): (Maps, Uuid) {
    if path in m.byPath then (m, m.byPath[path]) else (Maps(m.byPath[path := u], m.byUuid[u := path]), u)
  }

  ghost predicate Inverse(m: Maps) {
    forall path, u :: (path in m.byPath && m.byPath[path] == u) <==> (u in m.byUuid && m.byUuid[u] == path)
  }

  ghost predicate NoCollision(lib: Library, ns: Uuid, paths: set<string>) {
    forall p, q :: p in paths && q in paths && NewV5(lib, ns, p) == NewV5(lib, ns, q) ==> p == q
  }

  /** What holds whether or not identifiers collide. */
  ghost predicate MapsOk(lib: Library, ns: Uuid, m: Maps) {
    && (forall p :: p in m.byPath ==> m.byPath[p] == NewV5(lib, ns, p) && m.byPath[p] in m.byUuid)
    && (forall u :: u in m.byUuid ==> m.byUuid[u] in m.byPath && NewV5(lib, ns, m.byUuid[u]) == u)
  }

  /** The maps are mutual inverses exactly when no two of the paths in use collide. */
  lemma InverseIff(lib: Library, ns: Uuid, m: Maps)
    requires MapsOk(lib, ns, m)
    ensures Inverse(m) <==> NoCollision(lib, ns, m.byPath.Keys)
  {
    if Inverse(m) {
      forall p, q | p in m.byPath && q in m.byPath && NewV5(lib, ns, p) == NewV5(lib, ns, q) ensures p == q {
        assert m.byUuid[m.byPath[p]] == p && m.byUuid[m.byPath[q]] == q;
      }
    }
    if NoCollision(lib, ns, m.byPath.Keys) {
      forall path, u ensures (path in m.byPath && m.byPath[path] == u) <==> (u in m.byUuid && m.byUuid[u] == path) {
      }
    }
  }

  // ---- any number of callers ----

  /** Outside the locks a call has the cleaned path, then also a UUID of its own making. */
  datatype Call =
    | Asked(path: string)
    | Missed(path: string)
    | Computed(path: string, uuid: Uuid)
    | Returned(path: string, uuid: Uuid)

  datatype State = State(maps: Maps, calls: map<nat, Call>)

  /** Each lock holder's section is one step: nobody writes while anyone reads or writes. */
  datatype Event = Ask(t: nat, path: string) | ReadSection(t: nat) | Compute(t: nat) | WriteSection(t: nat)

  predicate Enabled(s: State, e: Event) {
    match e
    case Ask(t, path) => t !in s.calls && path != ""
    case ReadSection(t) => t in s.calls && s.calls[t].Asked?
    case Compute(t) => t in s.calls && s.calls[t].Missed?
    case WriteSection(t) => t in s.calls && s.calls[t].Computed?
  }

  function Step(lib: Library, ns: Uuid, s: State, e: Event): State
    requires Enabled(s, e)
  {
    match e
    case Ask(t, path) => s.(calls := s.calls[t := Asked(lib.clean(path))])
    case ReadSection(t) =>
      var path := s.calls[t].path;
      s.(calls := s.calls[t := if path in s.maps.byPath then Returned(path, s.maps.byPath[path]) else Missed(path)])
    case Compute(t) =>
      var path := s.calls[t].path;
      s.(calls := s.calls[t := Computed(path, NewV5(lib, ns, path))])
    case WriteSection(t) =>
      var path := s.calls[t].path;
      var (maps, u) := Enter(s.maps, path, s.calls[t].uuid);
      State(maps, s.calls[t := Returned(path, u)])
  }

  ghost predicate IsRun(lib: Library, ns: Uuid, states: seq<State>, events: seq<Event>) {
    && |states| == |events| + 1
    && states[0] == State(EMPTY, map[])
    && forall i :: 0 <= i < |events| ==>
         Enabled(states[i], events[i]) && states[i + 1] == Step(lib, ns, states[i], events[i])
  }

  ghost predicate CallOk(lib: Library, ns: Uuid, m: Maps, call: Call) {
    match call
    case Computed(path, u) => u == NewV5(lib, ns, path)
    case Returned(path, u) => u == NewV5(lib, ns, path) && path in m.byPath
    case _ => true
  }

  ghost predicate Inv(lib: Library, ns: Uuid, s: State) {
    MapsOk(lib, ns, s.maps) && forall t :: t in s.calls ==> CallOk(lib, ns, s.maps, s.calls[t])
  }

  lemma EnterKeepsOk(lib: Library, ns: Uuid, m: Maps, path: string)
    requires MapsOk(lib, ns, m)
    ensures var (m', u) := Enter(m, path, NewV5(lib, ns, path));
      MapsOk(lib, ns, m') && u == NewV5(lib, ns, path) && m'.byPath.Keys == m.byPath.Keys + {path}
  {
  }

  lemma StepKeepsInv(lib: Library, ns: Uuid, s: State, e: Event)
    requires Inv(lib, ns, s) && Enabled(s, e)
    ensures Inv(lib, ns, Step(lib, ns, s, e))
    ensures s.maps.byPath.Keys <= Step(lib, ns, s, e).maps.byPath.Keys
  {
    if e.WriteSection? {
      assert CallOk(lib, ns, s.maps, s.calls[e.t]);
      EnterKeepsOk(lib, ns, s.maps, s.calls[e.t].path);
    }
    var after := Step(lib, ns, s, e);
    forall t | t in after.calls ensures CallOk(lib, ns, after.maps, after.calls[t]) {
      if t != e.t { assert CallOk(lib, ns, s.maps, s.calls[t]); }
    }
  }

  lemma {:induction false} RunKeepsInv(lib: Library, ns: Uuid, states: seq<State>, events: seq<Event>, i: nat)
    requires IsRun(lib, ns, states, events) && i < |states|
    ensures Inv(lib, ns, states[i])
  {
    if i > 0 {
      RunKeepsInv(lib, ns, states, events, i - 1);
      StepKeepsInv(lib, ns, states[i - 1], events[i - 1]);
    }
  }

  /** Entries that are in a map are in it, unchanged, from then on. */
  ghost predicate Extends(m: Maps, later: Maps) {
    && (forall p :: p in m.byPath ==> p in later.byPath && later.byPath[p] == m.byPath[p])
    && (forall u :: u in m.byUuid ==> u in later.byUuid && later.byUuid[u] == m.byUuid[u])
  }

  lemma {:induction false} PathsGrow(lib: Library, ns: Uuid, states: seq<State>, events: seq<Event>, i: nat, j: nat)
    requires IsRun(lib, ns, states, events) && i <= j < |states|
    ensures states[i].maps.byPath.Keys <= states[j].maps.byPath.Keys
  {
    if i < j {
      PathsGrow(lib, ns, states, events, i, j - 1);
      RunKeepsInv(lib, ns, states, events, j - 1);
      StepKeepsInv(lib, ns, states[j - 1], events[j - 1]);
    }
  }

  /**
   In every interleaving, if the paths in use at the end do not collide: the maps are mutual inverses throughout,
   and no entry changes or vanishes.
   */
  lemma EntriesStay(lib: Library, ns: Uuid, states: seq<State>, events: seq<Event>, i: nat, j: nat)
    requires IsRun(lib, ns, states, events) && i <= j < |states|
    requires NoCollision(lib, ns, states[j].maps.byPath.Keys)
    ensures Inverse(states[i].maps) && Inverse(states[j].maps)
    ensures Extends(states[i].maps, states[j].maps)
  {
    RunKeepsInv(lib, ns, states, events, i);
    RunKeepsInv(lib, ns, states, events, j);
    PathsGrow(lib, ns, states, events, i, j);
    InverseIff(lib, ns, states[i].maps);
    InverseIff(lib, ns, states[j].maps);
    OkExtends(lib, ns, states[i].maps, states[j].maps);
  }

  lemma OkExtends(lib: Library, ns: Uuid, m: Maps, later: Maps)
    requires MapsOk(lib, ns, m) && MapsOk(lib, ns, later) && m.byPath.Keys <= later.byPath.Keys
    requires NoCollision(lib, ns, later.byPath.Keys)
    ensures Extends(m, later)
  {
    forall u | u in m.byUuid ensures u in later.byUuid && later.byUuid[u] == m.byUuid[u] {
      var p := m.byUuid[u];
      assert later.byPath[p] == u;
      assert later.byUuid[u] in later.byPath.Keys;
    }
  }

  /** GetRelativePath. */
  function Relative(m: Maps, u: Uuid): (r: Result<string>) {
    if u == NIL || u !in m.byUuid then Err else Ok(m.byUuid[u])
  }

  /** A call works on the cleaned form of the path it was asked for. */
  lemma {:induction false} CallIsFor(
      lib: Library, ns: Uuid, states: seq<State>, events: seq<Event>, k: nat, i: nat, t: nat, asked: string)
    requires IsRun(lib, ns, states, events) && k < i < |states| && events[k] == Ask(t, asked)
    ensures t in states[i].calls && states[i].calls[t].path == lib.clean(asked)
  {
    if k + 1 < i { CallIsFor(lib, ns, states, events, k, i - 1, t, asked); }
  }

  /**
   Calls for paths of one cleaned form return one UUID, whenever they ran; and from its return on, the UUID leads
   back to that cleaned path, and to no other call's.
   */
  lemma ObfuscateRoundTrip(
      lib: Library, ns: Uuid, states: seq<State>, events: seq<Event>, i: nat, k: nat, k': nat, t: nat, t': nat,
      asked: string, asked': string)
    requires lib.Sound() && IsRun(lib, ns, states, events) && i < |states|
    requires k < i && k' < i && events[k] == Ask(t, asked) && events[k'] == Ask(t', asked')
    requires t in states[i].calls && states[i].calls[t].Returned?
    requires t' in states[i].calls && states[i].calls[t'].Returned?
    ensures var u, u' := states[i].calls[t].uuid, states[i].calls[t'].uuid;
      && (lib.clean(asked) == lib.clean(asked') ==> u == u')
      && (NoCollision(lib, ns, states[i].maps.byPath.Keys) ==>
            && Relative(states[i].maps, u) == Ok(lib.clean(asked))
            && (u == u' ==> lib.clean(asked) == lib.clean(asked')))
  {
    RunKeepsInv(lib, ns, states, events, i);
    CallIsFor(lib, ns, states, events, k, i, t, asked);
    CallIsFor(lib, ns, states, events, k', i, t', asked');
    assert CallOk(lib, ns, states[i].maps, states[i].calls[t]);
    assert CallOk(lib, ns, states[i].maps, states[i].calls[t']);
    V5IsUuid(lib, ns, lib.clean(asked));
    var m := states[i].maps;
    assert m.byUuid[m.byPath[lib.clean(asked)]] in m.byPath.Keys;
  }

  // ---- the sections as code ----

  class AssetManager {
    const lib: Library
    const namespace: Uuid
    var pathToUuid: map<string, Uuid>
    var uuidToPath: map<Uuid, string>

    function State(): Maps
      reads this
    {
      Maps(pathToUuid, uuidToPath)
    }

    constructor (lib: Library, ns: Uuid)
      ensures this.lib == lib && namespace == ns && State() == EMPTY
    {
      this.lib := lib;
      namespace := ns;
      pathToUuid := map[];
      uuidToPath := map[];
    }

    method Obfuscate(path: string) returns (r: Result<Uuid>)
      modifies `pathToUuid, `uuidToPath
      ensures r.Err? <==> path == ""
      ensures path == "" ==> State() == old(State())
      ensures path != "" ==>
        (State(), r.value) == Enter(old(State()), lib.clean(path), NewV5(lib, namespace, lib.clean(path)))
      ensures old(MapsOk(lib, namespace, State())) ==>
        MapsOk(lib, namespace, State()) && (path != "" ==> r.value == NewV5(lib, namespace, lib.clean(path)))
      ensures path != "" ==> pathToUuid.Keys == old(pathToUuid).Keys + {lib.clean(path)}
    {
      if path == "" {
        return Err;
      }
      var cleanPath := lib.clean(path);
      // under the read lock
      if cleanPath in pathToUuid {
        return Ok(pathToUuid[cleanPath]);
      }
      var newUuid := NewV5(lib, namespace, cleanPath);
      newUuid := EnterLocked(cleanPath, newUuid);
      return Ok(newUuid);
    }

    /** Under the write lock: whoever came first has entered the path. */
    method EnterLocked(cleanPath: string, newUuid: Uuid) returns (u: Uuid)
      modifies `pathToUuid, `uuidToPath
      ensures (State(), u) == Enter(old(State()), cleanPath, newUuid)
    {
      if cleanPath in pathToUuid {
        return pathToUuid[cleanPath];
      }
      pathToUuid := pathToUuid[cleanPath := newUuid];
      uuidToPath := uuidToPath[newUuid := cleanPath];
      return newUuid;
    }

    method GetRelativePath(uuid: Uuid) returns (r: Result<string>)
      ensures r == Relative(State(), uuid)
    {
      if uuid == NIL {
        return Err;
      }
      if uuid !in uuidToPath {
        return Err;
      }
      return Ok(uuidToPath[uuid]);
    }
  }
}
