/**
 The image variant pipeline (internal/handlers/assets.go, internal/content/webp_processor.go, assets.go and
 sync.go): requests, queue, workers and bucket as one machine, over any number of starts of the process. A bucket
 call may fail, and a lookup may miss an object that is there; neither ever finds one that is not.
 */
module Pipeline {
  import opened Prelude
  import opened Keys
  import Assets
  import Processor
  import Serve

  type Uuid = Assets.Uuid
  type Bytes = string
  type Objects = map<string, Bytes>

  /** The UUID library, the namespace, and decode-resize-encode: None where the source does not decode. */
  datatype Env = Env(lib: Assets.Library, ns: Uuid, variant: (Bytes, int) -> Option<Bytes>) {
    function IdOf(path: string): string {
      var u := Assets.NewV5(lib, ns, path);
      if Assets.IsUuid(u) then Assets.Show(u) else ""
    }
  }

  // ---- the bucket ----

  /** unicode.IsSpace. */
  predicate IsSpace(c: char) {
    var code := c as int;
    || 9 <= code <= 13
    || code in {0x20, 0x85, 0xA0, 0x1680, 0x2028, 0x2029, 0x202F, 0x205F, 0x3000}
    || 0x2000 <= code <= 0x200A
  }

  function TrimSpace(s: string): (r: string)
    ensures r != "" ==> !IsSpace(r[0]) && !IsSpace(r[|r| - 1])
    decreases |s|
  {
    if s == "" then ""
    else if IsSpace(s[0]) then TrimSpace(s[1..])
    else if IsSpace(s[|s| - 1]) then TrimSpace(s[..|s| - 1])
    else s
  }

  lemma TrimIdempotent(s: string)
    ensures TrimSpace(TrimSpace(s)) == TrimSpace(s)
  {
  }

  /** Open and Exists trim the key, so these are the only keys ever read. */
  predicate Trimmed(key: string) {
    TrimSpace(key) == key
  }

  function Open(bucket: Objects, key: string): Option<Bytes> {
    if key == "" || TrimSpace(key) !in bucket then None else Some(bucket[TrimSpace(key)])
  }

  /** No object that can be read changes or goes. */
  ghost predicate Grows(bucket: Objects, later: Objects) {
    forall key :: key in bucket && Trimmed(key) ==> key in later && later[key] == bucket[key]
  }

  lemma GrowsTrans(a: Objects, b: Objects, c: Objects)
    requires Grows(a, b) && Grows(b, c)
    ensures Grows(a, c)
  {
  }

  lemma OpenStays(bucket: Objects, later: Objects, key: string)
    requires Grows(bucket, later)
    ensures Open(bucket, key).Some? ==> Open(later, key) == Open(bucket, key)
  {
    TrimIdempotent(key);
  }

  // ---- variants and their sources ----

  ghost predicate MadeFrom(env: Env, bucket: Objects, path: string, w: int, bytes: Bytes) {
    Open(bucket, path).Some? && env.variant(Open(bucket, path).value, w) == Some(bytes)
  }

  ghost predicate IsSource(env: Env, used: set<string>, u: Uuid, path: string) {
    path in used && Assets.NewV5(env.lib, env.ns, path) == u
  }

  /** The bytes are the variant of the source whose cleaned path has this identifier. */
  ghost predicate IsVariantOf(env: Env, used: set<string>, bucket: Objects, u: Uuid, w: int, bytes: Bytes) {
    exists path :: IsSource(env, used, u, path) && MadeFrom(env, bucket, path, w, bytes)
  }

  ghost predicate VariantOk(env: Env, used: set<string>, bucket: Objects, id: string, w: int) {
    VariantKey(id, w) in bucket ==>
      exists path :: path in used && env.IdOf(path) == id && MadeFrom(env, bucket, path, w, bucket[VariantKey(id, w)])
  }

  ghost predicate VariantsOk(env: Env, used: set<string>, bucket: Objects) {
    forall id, w :: VariantOk(env, used, bucket, id, w)
  }

  lemma VariantOkStays(
      env: Env, used: set<string>, bucket: Objects, used': set<string>, bucket': Objects, id: string, w: int)
    requires VariantOk(env, used, bucket, id, w) && VariantKey(id, w) in bucket
    requires used <= used' && Grows(bucket, bucket')
    requires VariantKey(id, w) in bucket' && bucket'[VariantKey(id, w)] == bucket[VariantKey(id, w)]
    ensures VariantOk(env, used', bucket', id, w)
  {
    var bytes := bucket[VariantKey(id, w)];
    var path :| path in used && env.IdOf(path) == id && MadeFrom(env, bucket, path, w, bytes);
    OpenStays(bucket, bucket', path);
    assert MadeFrom(env, bucket', path, w, bytes);
  }

  lemma IdDeterminesPath(env: Env, used: set<string>, path: string, path': string)
    requires env.lib.Sound() && Assets.NoCollision(env.lib, env.ns, used)
    requires path in used && path' in used && env.IdOf(path) == env.IdOf(path')
    ensures path == path'
  {
    Assets.V5IsUuid(env.lib, env.ns, path);
    Assets.V5IsUuid(env.lib, env.ns, path');
    Assets.ShowInjective(env.lib, Assets.NewV5(env.lib, env.ns, path), Assets.NewV5(env.lib, env.ns, path'));
  }

  /** Saving a variant of a source again saves the bytes that are there. */
  lemma SaveAgain(env: Env, used: set<string>, bucket: Objects, path: string, w: int, bytes: Bytes)
    requires env.lib.Sound() && Assets.NoCollision(env.lib, env.ns, used)
    requires VariantsOk(env, used, bucket) && path in used && MadeFrom(env, bucket, path, w, bytes)
    requires VariantKey(env.IdOf(path), w) in bucket
    ensures bucket[VariantKey(env.IdOf(path), w)] == bytes
  {
    var found := bucket[VariantKey(env.IdOf(path), w)];
    assert VariantOk(env, used, bucket, env.IdOf(path), w);
    var path' :| path' in used && env.IdOf(path') == env.IdOf(path) && MadeFrom(env, bucket, path', w, found);
    IdDeterminesPath(env, used, path, path');
  }

  lemma SaveKeeps(env: Env, used: set<string>, bucket: Objects, path: string, w: int, bytes: Bytes)
    requires env.lib.Sound() && Assets.NoCollision(env.lib, env.ns, used)
    requires VariantsOk(env, used, bucket) && path in used && MadeFrom(env, bucket, path, w, bytes)
    ensures var after := bucket[VariantKey(env.IdOf(path), w) := bytes];
      Grows(bucket, after) && VariantsOk(env, used, after)
  {
    var key := VariantKey(env.IdOf(path), w);
    var after := bucket[key := bytes];
    if key in bucket { SaveAgain(env, used, bucket, path, w, bytes); }
    assert Grows(bucket, after);
    OpenStays(bucket, after, path);
    assert MadeFrom(env, after, path, w, bytes);
    forall id, v ensures VariantOk(env, used, after, id, v) {
      if VariantKey(id, v) == key {
        VariantKeyInjective(id, v, env.IdOf(path), w);
      } else if VariantKey(id, v) in bucket {
        assert VariantOk(env, used, bucket, id, v);
        VariantOkStays(env, used, bucket, used, after, id, v);
      }
    }
  }

  /** A write outside the variants, to a readable key that is new or holds these bytes already. */
  ghost predicate MayPut(bucket: Objects, key: string, body: Bytes) {
    !IsVariantKey(key) && (Trimmed(key) && key in bucket ==> bucket[key] == body)
  }

  lemma PutKeeps(env: Env, used: set<string>, bucket: Objects, key: string, body: Bytes)
    requires VariantsOk(env, used, bucket) && MayPut(bucket, key, body)
    ensures Grows(bucket, bucket[key := body]) && VariantsOk(env, used, bucket[key := body])
  {
    var after := bucket[key := body];
    forall id, w ensures VariantOk(env, used, after, id, w) {
      assert VariantKey(id, w) != key;
      if VariantKey(id, w) in bucket {
        assert VariantOk(env, used, bucket, id, w);
        VariantOkStays(env, used, bucket, used, after, id, w);
      }
    }
  }

  // ---- the machine ----

  datatype Answer =
    | NotFound
    | BadRequest
    | Variant(u: Uuid, w: int, bytes: Bytes)
    | Source(u: Uuid, path: string, bytes: Bytes)

  datatype Stage =
    | Checking(u: Uuid, w: int)
    | Hit(u: Uuid, w: int)
    | Missed(u: Uuid)
    | Enqueuing(u: Uuid, path: string, i: nat)
    | Waiting(u: Uuid, path: string, i: nat, t: nat)
    | Answered(answer: Answer)

  /** `used` is every cleaned path that Obfuscate has entered, in this process or an earlier one. */
  datatype State = State(
    maps: Assets.Maps, queue: Processor.State, bucket: Objects, used: set<string>,
    held: map<nat, Bytes>, requests: map<nat, Stage>)
  {
    predicate IsWorking(w: nat) {
      queue.Worker(w).Working?
    }

    function Go(r: nat, stage: Stage): State {
      this.(requests := requests[r := stage])
    }
  }

  datatype Event =
    | Restart
    | Put(key: string, body: Bytes)
    | Register(path: string)
    | Arrive(r: nat, key: string)
    | Check(r: nat, seen: bool)
    | Fetch(r: nat, ok: bool)
    | Locate(r: nat)
    | Enqueue(r: nat, t: nat)
    | Resume(r: nat)
    | Retrieve(r: nat, ok: bool)
    | Queue(event: Processor.Event)
    | OpenSource(w: nat)
    | SaveVariant(w: nat)
    | EndJob(w: nat)

  ghost predicate Enabled(env: Env, s: State, e: Event) {
    match e
    case Restart => true
    case Put(key, body) => MayPut(s.bucket, key, body)
    case Register(path) => path != ""
    case Arrive(r, key) => r !in s.requests
    case Check(r, seen) =>
      r in s.requests && s.requests[r].Checking?
      && Assets.IsUuid(s.requests[r].u)
      && (seen ==> Open(s.bucket, VariantKey(Assets.Show(s.requests[r].u), s.requests[r].w)).Some?)
    case Fetch(r, _) => r in s.requests && s.requests[r].Hit? && Assets.IsUuid(s.requests[r].u)
    case Locate(r) => r in s.requests && s.requests[r].Missed?
    case Enqueue(r, t) =>
      r in s.requests && s.requests[r].Enqueuing? && s.requests[r].i < |Serve.WIDTHS| && t !in s.queue.calls
      && Assets.IsUuid(s.requests[r].u)
    case Resume(r) =>
      r in s.requests && s.requests[r].Waiting?
      && s.requests[r].t in s.queue.calls && s.queue.calls[s.requests[r].t].Returned?
    case Retrieve(r, _) => r in s.requests && s.requests[r].Enqueuing? && s.requests[r].i == |Serve.WIDTHS|
    case Queue(event) => Processor.Enabled(s.queue, event) && !event.Store? && !event.Finish?
    case OpenSource(w) => s.IsWorking(w) && Open(s.bucket, s.queue.Worker(w).job.path).Some?
    case SaveVariant(w) => s.IsWorking(w) && w in s.held && env.variant(s.held[w], s.queue.Worker(w).job.width).Some?
    case EndJob(w) => s.IsWorking(w)
  }

  /** A job whichever way it ends: skipped, failed, cancelled or saved. */
  function End(s: State, w: nat): State
    requires s.IsWorking(w)
  {
    s.(queue := Processor.Step(Processor.AsWritten, s.queue, Processor.Finish(w)), held := s.held - {w})
  }

  ghost function Step(env: Env, s: State, e: Event): State
    requires Enabled(env, s, e)
  {
    match e
    case Restart => State(Assets.EMPTY, Processor.INITIAL, s.bucket, s.used, map[], map[])
    case Put(key, body) => s.(bucket := s.bucket[key := body])
    case Register(path) =>
      var clean := env.lib.clean(path);
      s.(maps := Assets.Enter(s.maps, clean, Assets.NewV5(env.lib, env.ns, clean)).0, used := s.used + {clean})
    case Arrive(r, key) => s.Go(r, Parsed(env, key))
    case Check(r, seen) =>
      var u, w := s.requests[r].u, s.requests[r].w;
      s.Go(r, if seen then Hit(u, w) else Missed(u))
    case Fetch(r, ok) =>
      var u, w := s.requests[r].u, s.requests[r].w;
      var found := Open(s.bucket, VariantKey(Assets.Show(u), w));
      s.Go(r, Answered(if ok && found.Some? then Variant(u, w, found.value) else NotFound))
    case Locate(r) =>
      var u := s.requests[r].u;
      var path := Assets.Relative(s.maps, u);
      s.Go(r, if path.Ok? then Enqueuing(u, path.value, 0) else Answered(NotFound))
    case Enqueue(r, t) =>
      var u, path, i := s.requests[r].u, s.requests[r].path, s.requests[r].i;
      var job := Processor.Job(path, Assets.Show(u), Serve.WIDTHS[i]);
      s.(queue := Processor.Step(Processor.AsWritten, s.queue, Processor.Store(t, job)),
         requests := s.requests[r := Waiting(u, path, i, t)])
    case Resume(r) => s.Go(r, Enqueuing(s.requests[r].u, s.requests[r].path, s.requests[r].i + 1))
    case Retrieve(r, ok) =>
      var u := s.requests[r].u;
      var path := Assets.Relative(s.maps, u);
      var found := if path.Ok? then Open(s.bucket, path.value) else None;
      s.Go(r, Answered(if ok && found.Some? then Source(u, path.value, found.value) else NotFound))
    case Queue(event) => s.(queue := Processor.Step(Processor.AsWritten, s.queue, event))
    case OpenSource(w) => s.(held := s.held[w := Open(s.bucket, s.queue.Worker(w).job.path).value])
    case SaveVariant(w) =>
      var job := s.queue.Worker(w).job;
      End(s, w).(bucket := s.bucket[VariantKey(job.id, job.width) := env.variant(s.held[w], job.width).value])
    case EndJob(w) => End(s, w)
  }

  function Parsed(env: Env, key: string): Stage {
    match Serve.ParseKey(env.lib, key)
    case NotFound => Answered(NotFound)
    case BadRequest => Answered(BadRequest)
    case Asset(u, w) => Checking(u, w)
  }

  /** Any interleaving, from a process start on a bucket that holds no variants yet. */
  ghost predicate IsRun(env: Env, states: seq<State>, events: seq<Event>) {
    && |states| == |events| + 1
    && states[0] == State(Assets.EMPTY, Processor.INITIAL, states[0].bucket, {}, map[], map[])
    && (forall key :: key in states[0].bucket ==> !IsVariantKey(key))
    && forall i :: 0 <= i < |events| ==>
         Enabled(env, states[i], events[i]) && states[i + 1] == Step(env, states[i], events[i])
  }

  // ---- what every step keeps ----

  ghost predicate JobOk(env: Env, used: set<string>, job: Processor.Job) {
    job.path in used && job.id == env.IdOf(job.path)
  }

  ghost predicate JobsOk(env: Env, used: set<string>, queue: Processor.State) {
    forall place :: Processor.JobAt(queue, place).Some? ==> JobOk(env, used, Processor.JobAt(queue, place).value)
  }

  ghost predicate HeldOk(bucket: Objects, queue: Processor.State, held: map<nat, Bytes>) {
    forall w :: w in held ==> queue.Worker(w).Working? && Open(bucket, queue.Worker(w).job.path) == Some(held[w])
  }

  ghost predicate StageOk(env: Env, used: set<string>, bucket: Objects, stage: Stage) {
    match stage
    case Checking(u, _) => Assets.IsUuid(u)
    case Hit(u, _) => Assets.IsUuid(u)
    case Missed(u) => Assets.IsUuid(u)
    case Enqueuing(u, path, _) => Assets.IsUuid(u) && IsSource(env, used, u, path)
    case Waiting(u, path, _, _) => Assets.IsUuid(u) && IsSource(env, used, u, path)
    case Answered(Variant(u, w, bytes)) => IsVariantOf(env, used, bucket, u, w, bytes)
    case Answered(Source(u, path, bytes)) => IsSource(env, used, u, path) && Open(bucket, path) == Some(bytes)
    case Answered(_) => true
  }

  ghost predicate StagesOk(env: Env, used: set<string>, bucket: Objects, requests: map<nat, Stage>) {
    forall r :: r in requests ==> StageOk(env, used, bucket, requests[r])
  }

  ghost predicate MapsOk(env: Env, used: set<string>, maps: Assets.Maps) {
    Assets.MapsOk(env.lib, env.ns, maps) && maps.byPath.Keys <= used
  }

  ghost predicate Inv(env: Env, s: State) {
    && MapsOk(env, s.used, s.maps)
    && JobsOk(env, s.used, s.queue)
    && HeldOk(s.bucket, s.queue, s.held)
    && VariantsOk(env, s.used, s.bucket)
    && StagesOk(env, s.used, s.bucket, s.requests)
  }

  lemma IsVariantStays(
      env: Env, used: set<string>, bucket: Objects, used': set<string>, bucket': Objects, u: Uuid, w: int, bytes: Bytes)
    requires used <= used' && Grows(bucket, bucket') && IsVariantOf(env, used, bucket, u, w, bytes)
    ensures IsVariantOf(env, used', bucket', u, w, bytes)
  {
    var path :| IsSource(env, used, u, path) && MadeFrom(env, bucket, path, w, bytes);
    OpenStays(bucket, bucket', path);
    assert IsSource(env, used', u, path) && MadeFrom(env, bucket', path, w, bytes);
  }

  lemma StagesStay(
      env: Env, used: set<string>, bucket: Objects, used': set<string>, bucket': Objects, requests: map<nat, Stage>)
    requires used <= used' && Grows(bucket, bucket') && StagesOk(env, used, bucket, requests)
    ensures StagesOk(env, used', bucket', requests)
  {
    forall r | r in requests ensures StageOk(env, used', bucket', requests[r]) {
      match requests[r]
      case Answered(Variant(u, w, bytes)) => IsVariantStays(env, used, bucket, used', bucket', u, w, bytes);
      case Answered(Source(u, path, bytes)) => OpenStays(bucket, bucket', path);
      case _ =>
    }
  }

  lemma HeldStays(bucket: Objects, bucket': Objects, queue: Processor.State, held: map<nat, Bytes>)
    requires Grows(bucket, bucket') && HeldOk(bucket, queue, held)
    ensures HeldOk(bucket', queue, held)
  {
    forall w | w in held ensures Open(bucket', queue.Worker(w).job.path) == Some(held[w]) {
      OpenStays(bucket, bucket', queue.Worker(w).job.path);
    }
  }

  /** The queue passes jobs on and makes none. */
  lemma JobsStay(env: Env, used: set<string>, queue: Processor.State, e: Processor.Event)
    requires JobsOk(env, used, queue) && Processor.Enabled(queue, e)
    requires e.Store? ==> JobOk(env, used, e.job)
    ensures JobsOk(env, used, Processor.Step(Processor.AsWritten, queue, e))
  {
    var after := Processor.Step(Processor.AsWritten, queue, e);
    forall place | Processor.JobAt(after, place).Some? ensures JobOk(env, used, Processor.JobAt(after, place).value) {
      Processor.StepMoves(Processor.AsWritten, queue, e, place);
    }
  }

  lemma SaveWrites(env: Env, s: State, w: nat)
    requires Enabled(env, s, SaveVariant(w))
    ensures var job := s.queue.Worker(w).job;
      Step(env, s, SaveVariant(w)).bucket ==
        s.bucket[VariantKey(job.id, job.width) := env.variant(s.held[w], job.width).value]
  {
  }

  lemma SavesSource(env: Env, s: State, w: nat)
    requires JobsOk(env, s.used, s.queue) && HeldOk(s.bucket, s.queue, s.held) && s.IsWorking(w) && w in s.held
    requires env.variant(s.held[w], s.queue.Worker(w).job.width).Some?
    ensures var job := s.queue.Worker(w).job;
      JobOk(env, s.used, job)
      && MadeFrom(env, s.bucket, job.path, job.width, env.variant(s.held[w], job.width).value)
  {
    assert Processor.JobAt(s.queue, Processor.Running(w)) == Some(s.queue.Worker(w).job);
  }

  lemma SaveStep(env: Env, s: State, w: nat)
    requires env.lib.Sound() && Inv(env, s) && Enabled(env, s, SaveVariant(w))
    requires Assets.NoCollision(env.lib, env.ns, s.used)
    ensures var after := Step(env, s, SaveVariant(w)).bucket; Grows(s.bucket, after) && VariantsOk(env, s.used, after)
  {
    var job := s.queue.Worker(w).job;
    SaveWrites(env, s, w);
    SavesSource(env, s, w);
    SaveKeeps(env, s.used, s.bucket, job.path, job.width, env.variant(s.held[w], job.width).value);
  }

  lemma VariantsLater(env: Env, used: set<string>, used': set<string>, bucket: Objects)
    requires VariantsOk(env, used, bucket) && used <= used'
    ensures VariantsOk(env, used', bucket)
  {
    forall id, w ensures VariantOk(env, used', bucket, id, w) {
      assert VariantOk(env, used, bucket, id, w);
      if VariantKey(id, w) in bucket {
        VariantOkStays(env, used, bucket, used', bucket, id, w);
      }
    }
  }

  lemma BucketStep(env: Env, s: State, e: Event)
    requires env.lib.Sound() && Inv(env, s) && Enabled(env, s, e)
    requires Assets.NoCollision(env.lib, env.ns, Step(env, s, e).used)
    ensures Grows(s.bucket, Step(env, s, e).bucket) && s.used <= Step(env, s, e).used
    ensures VariantsOk(env, Step(env, s, e).used, Step(env, s, e).bucket)
  {
    match e
    case Put(key, body) => PutKeeps(env, s.used, s.bucket, key, body);
    case SaveVariant(w) => SaveStep(env, s, w);
    case Register(path) => VariantsLater(env, s.used, Step(env, s, e).used, s.bucket);
    case _ =>
  }

  lemma MapsStep(env: Env, s: State, e: Event)
    requires Inv(env, s) && Enabled(env, s, e)
    ensures MapsOk(env, Step(env, s, e).used, Step(env, s, e).maps)
  {
    if e.Register? {
      Assets.EnterKeepsOk(env.lib, env.ns, s.maps, env.lib.clean(e.path));
    }
  }

  /** Once a path is entered, its identifier leads to its cleaned form, if no paths in use collide. */
  lemma RegisterEnters(env: Env, s: State, path: string)
    requires env.lib.Sound() && MapsOk(env, s.used, s.maps) && Enabled(env, s, Register(path))
    requires Assets.NoCollision(env.lib, env.ns, s.used + {env.lib.clean(path)})
    ensures var clean := env.lib.clean(path);
      Assets.Relative(Step(env, s, Register(path)).maps, Assets.NewV5(env.lib, env.ns, clean)) == Ok(clean)
  {
    var clean := env.lib.clean(path);
    var maps := Step(env, s, Register(path)).maps;
    Assets.EnterKeepsOk(env.lib, env.ns, s.maps, clean);
    Assets.V5IsUuid(env.lib, env.ns, clean);
    assert maps.byUuid[maps.byPath[clean]] in s.used + {clean};
  }

  lemma QueueHeld(bucket: Objects, queue: Processor.State, held: map<nat, Bytes>, e: Processor.Event)
    requires HeldOk(bucket, queue, held) && Processor.Enabled(queue, e)
    ensures e.Finish? ==> HeldOk(bucket, Processor.Step(Processor.AsWritten, queue, e), held - {e.w})
    ensures !e.Finish? ==> HeldOk(bucket, Processor.Step(Processor.AsWritten, queue, e), held)
  {
    var after := Processor.Step(Processor.AsWritten, queue, e);
    forall w | w in held && !(e.Finish? && w == e.w) ensures after.Worker(w) == queue.Worker(w) {
      assert queue.Worker(w).Working?;
    }
  }

  lemma HeldStep(env: Env, s: State, e: Event)
    requires HeldOk(s.bucket, s.queue, s.held) && Enabled(env, s, e) && Grows(s.bucket, Step(env, s, e).bucket)
    ensures HeldOk(Step(env, s, e).bucket, Step(env, s, e).queue, Step(env, s, e).held)
  {
    var bucket := Step(env, s, e).bucket;
    HeldStays(s.bucket, bucket, s.queue, s.held);
    match e
    case Enqueue(r, t) =>
      var job := Processor.Job(s.requests[r].path, Assets.Show(s.requests[r].u), Serve.WIDTHS[s.requests[r].i]);
      QueueHeld(bucket, s.queue, s.held, Processor.Store(t, job));
    case Queue(event) => QueueHeld(bucket, s.queue, s.held, event);
    case SaveVariant(w) => QueueHeld(bucket, s.queue, s.held, Processor.Finish(w));
    case EndJob(w) => QueueHeld(bucket, s.queue, s.held, Processor.Finish(w));
    case _ =>
  }

  lemma JobsLater(env: Env, used: set<string>, used': set<string>, queue: Processor.State)
    requires JobsOk(env, used, queue) && used <= used'
    ensures JobsOk(env, used', queue)
  {
  }

  lemma QueueStep(env: Env, s: State, e: Event)
    requires env.lib.Sound() && Inv(env, s) && Enabled(env, s, e)
    requires s.used <= Step(env, s, e).used
    ensures JobsOk(env, Step(env, s, e).used, Step(env, s, e).queue)
  {
    JobsLater(env, s.used, Step(env, s, e).used, s.queue);
    match e
    case Enqueue(r, t) =>
      var stage := s.requests[r];
      assert StageOk(env, s.used, s.bucket, stage);
      var job := Processor.Job(stage.path, Assets.Show(stage.u), Serve.WIDTHS[stage.i]);
      JobsStay(env, s.used, s.queue, Processor.Store(t, job));
    case Queue(event) => JobsStay(env, s.used, s.queue, event);
    case SaveVariant(w) => JobsStay(env, s.used, s.queue, Processor.Finish(w));
    case EndJob(w) => JobsStay(env, s.used, s.queue, Processor.Finish(w));
    case _ =>
  }

  /** The object behind a hit is the variant the identifier stands for. */
  lemma HitIsVariant(env: Env, used: set<string>, bucket: Objects, u: Uuid, w: int)
    requires env.lib.Sound() && VariantsOk(env, used, bucket) && Assets.IsUuid(u)
    ensures var found := Open(bucket, VariantKey(Assets.Show(u), w));
      found.Some? ==> IsVariantOf(env, used, bucket, u, w, found.value)
  {
    var key := VariantKey(Assets.Show(u), w);
    if Open(bucket, key).Some? {
      assert Trimmed(key) by { assert key[0] == Assets.Show(u)[0] && key[|key| - 1] == 'p'; }
      assert VariantOk(env, used, bucket, Assets.Show(u), w);
      var path :| path in used && env.IdOf(path) == Assets.Show(u) && MadeFrom(env, bucket, path, w, bucket[key]);
      Assets.V5IsUuid(env.lib, env.ns, path);
      Assets.ShowInjective(env.lib, Assets.NewV5(env.lib, env.ns, path), u);
      assert IsSource(env, used, u, path);
    }
  }

  predicate IsRequestEvent(e: Event) {
    e.Arrive? || e.Check? || e.Fetch? || e.Locate? || e.Enqueue? || e.Resume? || e.Retrieve?
  }

  lemma ParsedOk(env: Env, used: set<string>, bucket: Objects, key: string)
    requires env.lib.Sound()
    ensures StageOk(env, used, bucket, Parsed(env, key))
  {
    match Serve.ParseKey(env.lib, key)
    case Asset(u, w) => Serve.AcceptedKey(env.lib, key, u, w);
    case _ =>
  }

  lemma RelativeIsSource(env: Env, used: set<string>, maps: Assets.Maps, u: Uuid)
    requires MapsOk(env, used, maps)
    ensures Assets.Relative(maps, u).Ok? ==> IsSource(env, used, u, Assets.Relative(maps, u).value)
  {
    if Assets.Relative(maps, u).Ok? {
      assert maps.byUuid[u] in maps.byPath.Keys;
    }
  }

  /** A request's own step leaves it in order; it touches no other request, nor the bucket. */
  lemma NewStageOk(env: Env, s: State, e: Event)
    requires env.lib.Sound() && Inv(env, s) && Enabled(env, s, e) && IsRequestEvent(e)
    ensures e.r in Step(env, s, e).requests
    ensures Step(env, s, e).requests == s.requests[e.r := Step(env, s, e).requests[e.r]]
    ensures StageOk(env, s.used, s.bucket, Step(env, s, e).requests[e.r])
  {
    assert !e.Arrive? ==> StageOk(env, s.used, s.bucket, s.requests[e.r]);
    match e
    case Arrive(r, key) => ParsedOk(env, s.used, s.bucket, key);
    case Fetch(r, ok) => HitIsVariant(env, s.used, s.bucket, s.requests[r].u, s.requests[r].w);
    case Locate(r) => RelativeIsSource(env, s.used, s.maps, s.requests[r].u);
    case Retrieve(r, ok) => RelativeIsSource(env, s.used, s.maps, s.requests[r].u);
    case _ =>
  }

  lemma RequestStep(env: Env, s: State, e: Event)
    requires env.lib.Sound() && Inv(env, s) && Enabled(env, s, e)
    requires s.used <= Step(env, s, e).used && Grows(s.bucket, Step(env, s, e).bucket)
    ensures StagesOk(env, Step(env, s, e).used, Step(env, s, e).bucket, Step(env, s, e).requests)
  {
    if IsRequestEvent(e) {
      NewStageOk(env, s, e);
    } else {
      StagesStay(env, s.used, s.bucket, Step(env, s, e).used, Step(env, s, e).bucket, s.requests);
    }
  }

  lemma StepKeepsInv(env: Env, s: State, e: Event)
    requires env.lib.Sound() && Inv(env, s) && Enabled(env, s, e)
    requires Assets.NoCollision(env.lib, env.ns, Step(env, s, e).used)
    ensures Inv(env, Step(env, s, e))
    ensures Grows(s.bucket, Step(env, s, e).bucket) && s.used <= Step(env, s, e).used
  {
    BucketStep(env, s, e);
    MapsStep(env, s, e);
    QueueStep(env, s, e);
    HeldStep(env, s, e);
    RequestStep(env, s, e);
  }

  // ---- whole runs ----

  lemma {:induction false} UsedGrows(env: Env, states: seq<State>, events: seq<Event>, i: nat, j: nat)
    requires IsRun(env, states, events) && i <= j < |states|
    ensures states[i].used <= states[j].used
  {
    if i < j { UsedGrows(env, states, events, i, j - 1); }
  }

  lemma {:induction false} RunKeepsInv(env: Env, states: seq<State>, events: seq<Event>, i: nat)
    requires env.lib.Sound() && IsRun(env, states, events) && i < |states|
    requires Assets.NoCollision(env.lib, env.ns, states[i].used)
    ensures Inv(env, states[i])
  {
    if i > 0 {
      UsedGrows(env, states, events, i - 1, i);
      RunKeepsInv(env, states, events, i - 1);
      StepKeepsInv(env, states[i - 1], events[i - 1]);
    } else {
      assert forall id, w :: VariantOk(env, {}, states[0].bucket, id, w);
    }
  }

  lemma FewerCollisions(env: Env, used: set<string>, later: set<string>)
    requires Assets.NoCollision(env.lib, env.ns, later) && used <= later
    ensures Assets.NoCollision(env.lib, env.ns, used)
  {
  }

  lemma StepGrows(env: Env, states: seq<State>, events: seq<Event>, i: nat)
    requires env.lib.Sound() && IsRun(env, states, events) && i < |events|
    requires Assets.NoCollision(env.lib, env.ns, states[i + 1].used)
    ensures Grows(states[i].bucket, states[i + 1].bucket)
  {
    UsedGrows(env, states, events, i, i + 1);
    FewerCollisions(env, states[i].used, states[i + 1].used);
    RunKeepsInv(env, states, events, i);
    StepKeepsInv(env, states[i], events[i]);
  }

  /** Sources and variants alike: nothing a reader can see in the bucket ever changes. */
  lemma {:induction false} WrittenOnce(env: Env, states: seq<State>, events: seq<Event>, i: nat, j: nat)
    requires env.lib.Sound() && IsRun(env, states, events) && i <= j < |states|
    requires Assets.NoCollision(env.lib, env.ns, states[j].used)
    ensures Grows(states[i].bucket, states[j].bucket)
  {
    if i < j {
      UsedGrows(env, states, events, j - 1, j);
      FewerCollisions(env, states[j - 1].used, states[j].used);
      WrittenOnce(env, states, events, i, j - 1);
      StepGrows(env, states, events, j - 1);
      GrowsTrans(states[i].bucket, states[j - 1].bucket, states[j].bucket);
    }
  }

  ghost predicate IsAnswered(s: State, r: nat, answer: Answer) {
    r in s.requests && s.requests[r] == Answered(answer)
  }

  lemma OneSource(env: Env, used: set<string>, u: Uuid, path: string, path': string)
    requires Assets.NoCollision(env.lib, env.ns, used) && IsSource(env, used, u, path) && IsSource(env, used, u, path')
    ensures path == path'
  {
  }

  lemma HitStays(
      env: Env, states: seq<State>, events: seq<Event>, i: nat, j: nat, r: nat, u: Uuid, w: int, bytes: Bytes)
    requires env.lib.Sound() && IsRun(env, states, events) && i <= j < |states|
    requires Assets.NoCollision(env.lib, env.ns, states[j].used)
    requires IsAnswered(states[i], r, Variant(u, w, bytes))
    ensures IsVariantOf(env, states[j].used, states[j].bucket, u, w, bytes)
  {
    UsedGrows(env, states, events, i, j);
    FewerCollisions(env, states[i].used, states[j].used);
    RunKeepsInv(env, states, events, i);
    WrittenOnce(env, states, events, i, j);
    AnsweredIsVariant(env, states[i], r, u, w, bytes);
    IsVariantStays(env, states[i].used, states[i].bucket, states[j].used, states[j].bucket, u, w, bytes);
  }

  lemma AnsweredIsVariant(env: Env, s: State, r: nat, u: Uuid, w: int, bytes: Bytes)
    requires Inv(env, s) && IsAnswered(s, r, Variant(u, w, bytes))
    ensures IsVariantOf(env, s.used, s.bucket, u, w, bytes)
  {
    assert StageOk(env, s.used, s.bucket, s.requests[r]);
  }

  /**
   Every HIT, in every interleaving and after any number of restarts, is the variant at the asked width of the one
   source whose cleaned path has the asked identifier - and still is at any later time.
   */
  lemma EveryHitIsTheVariant(
      env: Env, states: seq<State>, events: seq<Event>, i: nat, j: nat, r: nat, u: Uuid, w: int, bytes: Bytes)
    requires env.lib.Sound() && IsRun(env, states, events) && i <= j < |states|
    requires Assets.NoCollision(env.lib, env.ns, states[j].used)
    requires IsAnswered(states[i], r, Variant(u, w, bytes))
    ensures IsVariantOf(env, states[j].used, states[j].bucket, u, w, bytes)
    ensures Assets.Relative(states[j].maps, u).Ok? ==>
      MadeFrom(env, states[j].bucket, Assets.Relative(states[j].maps, u).value, w, bytes)
  {
    HitStays(env, states, events, i, j, r, u, w, bytes);
    RunKeepsInv(env, states, events, j);
    RelativeIsSource(env, states[j].used, states[j].maps, u);
    if Assets.Relative(states[j].maps, u).Ok? {
      var path :| IsSource(env, states[j].used, u, path) && MadeFrom(env, states[j].bucket, path, w, bytes);
      OneSource(env, states[j].used, u, path, Assets.Relative(states[j].maps, u).value);
    }
  }

  /** A HIT for an identifier is what resizing the answer of any MISS for it would give. */
  lemma HitRefinesMiss(
      env: Env, states: seq<State>, events: seq<Event>, i: nat, j: nat, r: nat, r': nat,
      u: Uuid, w: int, bytes: Bytes, path: string, source: Bytes)
    requires env.lib.Sound() && IsRun(env, states, events) && i < |states| && j < |states|
    requires Assets.NoCollision(env.lib, env.ns, states[if i < j then j else i].used)
    requires IsAnswered(states[i], r, Variant(u, w, bytes)) && IsAnswered(states[j], r', Source(u, path, source))
    ensures env.variant(source, w) == Some(bytes)
  {
    var k := if i < j then j else i;
    EveryHitIsTheVariant(env, states, events, i, k, r, u, w, bytes);
    MissStays(env, states, events, j, k, r', u, path, source);
    var made :| IsSource(env, states[k].used, u, made) && MadeFrom(env, states[k].bucket, made, w, bytes);
    OneSource(env, states[k].used, u, made, path);
  }

  lemma MissStays(
      env: Env, states: seq<State>, events: seq<Event>, i: nat, j: nat, r: nat, u: Uuid, path: string, source: Bytes)
    requires env.lib.Sound() && IsRun(env, states, events) && i <= j < |states|
    requires Assets.NoCollision(env.lib, env.ns, states[j].used)
    requires IsAnswered(states[i], r, Source(u, path, source))
    ensures IsSource(env, states[j].used, u, path) && Open(states[j].bucket, path) == Some(source)
  {
    UsedGrows(env, states, events, i, j);
    FewerCollisions(env, states[i].used, states[j].used);
    RunKeepsInv(env, states, events, i);
    WrittenOnce(env, states, events, i, j);
    assert StageOk(env, states[i].used, states[i].bucket, states[i].requests[r]);
    OpenStays(states[i].bucket, states[j].bucket, path);
  }

  // ---- what a miss asks of the queue ----

  /** At this step the request calls Enqueue for this width. */
  ghost predicate IsOffer(states: seq<State>, events: seq<Event>, n: nat, r: nat, u: Uuid, path: string, w: int)
    requires |states| == |events| + 1
  {
    && n < |events| && events[n].Enqueue? && events[n].r == r && Assets.IsUuid(u)
    && var call := Processor.Store(events[n].t, Processor.Job(path, Assets.Show(u), w));
       Processor.Enabled(states[n].queue, call)
       && states[n + 1].queue == Processor.Step(Processor.AsWritten, states[n].queue, call)
  }

  ghost predicate WasOffered(states: seq<State>, events: seq<Event>, j: nat, r: nat, u: Uuid, path: string, w: int)
    requires |states| == |events| + 1
  {
    exists n :: 0 <= n < j && IsOffer(states, events, n, r, u, path, w)
  }

  /** The widths that a request has come to have been offered by it. */
  ghost predicate OffersMade(states: seq<State>, events: seq<Event>, j: nat, r: nat)
    requires |states| == |events| + 1 && j < |states|
  {
    r in states[j].requests ==>
      match states[j].requests[r]
      case Enqueuing(u, path, i) =>
        forall k :: 0 <= k < i && k < |Serve.WIDTHS| ==> WasOffered(states, events, j, r, u, path, Serve.WIDTHS[k])
      case Waiting(u, path, i, _) =>
        forall k :: 0 <= k <= i && k < |Serve.WIDTHS| ==> WasOffered(states, events, j, r, u, path, Serve.WIDTHS[k])
      case _ => true
  }

  lemma OfferedLater(states: seq<State>, events: seq<Event>, j: nat, r: nat, u: Uuid, path: string, w: int)
    requires |states| == |events| + 1 && WasOffered(states, events, j, r, u, path, w)
    ensures WasOffered(states, events, j + 1, r, u, path, w)
  {
    var n :| 0 <= n < j && IsOffer(states, events, n, r, u, path, w);
    assert 0 <= n < j + 1;
  }

  lemma OffersLater(states: seq<State>, events: seq<Event>, j: nat, r: nat, u: Uuid, path: string)
    requires |states| == |events| + 1
    ensures forall w ::
      WasOffered(states, events, j, r, u, path, w) ==> WasOffered(states, events, j + 1, r, u, path, w)
  {
    forall w | WasOffered(states, events, j, r, u, path, w) ensures WasOffered(states, events, j + 1, r, u, path, w) {
      OfferedLater(states, events, j, r, u, path, w);
    }
  }

  lemma EnqueueOffers(env: Env, states: seq<State>, events: seq<Event>, j: nat, r: nat)
    requires IsRun(env, states, events) && j < |events| && events[j].Enqueue? && events[j].r == r
    ensures r in states[j].requests && states[j].requests[r].Enqueuing? && states[j].requests[r].i < |Serve.WIDTHS|
    ensures var stage := states[j].requests[r];
      WasOffered(states, events, j + 1, r, stage.u, stage.path, Serve.WIDTHS[stage.i])
  {
    var stage := states[j].requests[r];
    assert IsOffer(states, events, j, r, stage.u, stage.path, Serve.WIDTHS[stage.i]);
  }

  /** The next stage of a request that is calling Enqueue, or not, from the one before. */
  ghost predicate NextStage(s: State, e: Event, s': State, r: nat)
    requires r in s'.requests
  {
    || (r in s.requests && s'.requests[r] == s.requests[r])
    || (s'.requests[r].Enqueuing? && s'.requests[r].i == 0)
    || (r in s.requests && s.requests[r].Enqueuing? && e.Enqueue? && e.r == r
        && s'.requests[r] == Waiting(s.requests[r].u, s.requests[r].path, s.requests[r].i, e.t))
    || (r in s.requests && s.requests[r].Waiting?
        && s'.requests[r] == Enqueuing(s.requests[r].u, s.requests[r].path, s.requests[r].i + 1))
    || (!s'.requests[r].Enqueuing? && !s'.requests[r].Waiting?)
  }

  lemma StageMoves(env: Env, s: State, e: Event, r: nat)
    requires Enabled(env, s, e) && r in Step(env, s, e).requests
    ensures NextStage(s, e, Step(env, s, e), r)
  {
  }

  lemma OfferStep(env: Env, states: seq<State>, events: seq<Event>, j: nat, r: nat)
    requires IsRun(env, states, events) && j < |events| && OffersMade(states, events, j, r)
    ensures OffersMade(states, events, j + 1, r)
  {
    if r in states[j + 1].requests {
      StageMoves(env, states[j], events[j], r);
      if events[j].Enqueue? && events[j].r == r { EnqueueOffers(env, states, events, j, r); }
      OffersFollow(states, events, j, r);
    }
  }

  lemma OffersFollow(states: seq<State>, events: seq<Event>, j: nat, r: nat)
    requires |states| == |events| + 1 && j < |events| && OffersMade(states, events, j, r)
    requires r in states[j + 1].requests && NextStage(states[j], events[j], states[j + 1], r)
    requires events[j].Enqueue? && events[j].r == r && r in states[j].requests && states[j].requests[r].Enqueuing? ==>
      var stage := states[j].requests[r];
      stage.i < |Serve.WIDTHS| && WasOffered(states, events, j + 1, r, stage.u, stage.path, Serve.WIDTHS[stage.i])
    ensures OffersMade(states, events, j + 1, r)
  {
    if r in states[j].requests && (states[j].requests[r].Enqueuing? || states[j].requests[r].Waiting?) {
      OffersLater(states, events, j, r, states[j].requests[r].u, states[j].requests[r].path);
    }
  }

  lemma {:induction false} OffersAreMade(env: Env, states: seq<State>, events: seq<Event>, j: nat, r: nat)
    requires IsRun(env, states, events) && j < |states|
    ensures OffersMade(states, events, j, r)
  {
    if j > 0 {
      OffersAreMade(env, states, events, j - 1, r);
      OfferStep(env, states, events, j - 1, r);
    }
  }

  /** Before a miss is answered with the source, Enqueue has been called for each of the three widths. */
  lemma MissOffersAll(env: Env, states: seq<State>, events: seq<Event>, j: nat, r: nat, ok: bool)
    requires IsRun(env, states, events) && j < |events| && events[j] == Retrieve(r, ok)
    ensures r in states[j].requests && states[j].requests[r].Enqueuing?
    ensures forall w :: w in {800, 1200, 1920} ==>
      WasOffered(states, events, j, r, states[j].requests[r].u, states[j].requests[r].path, w)
  {
    OffersAreMade(env, states, events, j, r);
    assert Serve.WIDTHS[0] == 800 && Serve.WIDTHS[1] == 1200 && Serve.WIDTHS[2] == 1920;
  }

  // ---- a variant that was not made ----

  /** The step of the queue in a step of the machine. */
  function QueueEvent(s: State, e: Event): Option<Processor.Event> {
    match e
    case Enqueue(r, t) =>
      if r in s.requests && s.requests[r].Enqueuing? && s.requests[r].i < |Serve.WIDTHS|
         && Assets.IsUuid(s.requests[r].u)
      then
        Some(Processor.Store(t, Processor.Job(
          s.requests[r].path, Assets.Show(s.requests[r].u), Serve.WIDTHS[s.requests[r].i])))
      else None
    case Queue(event) => Some(event)
    case SaveVariant(w) => Some(Processor.Finish(w))
    case EndJob(w) => Some(Processor.Finish(w))
    case _ => None
  }

  lemma QueueMoves(env: Env, s: State, e: Event)
    requires Enabled(env, s, e) && !e.Restart?
    ensures QueueEvent(s, e).Some? ==>
      && Processor.Enabled(s.queue, QueueEvent(s, e).value)
      && Step(env, s, e).queue == Processor.Step(Processor.AsWritten, s.queue, QueueEvent(s, e).value)
    ensures QueueEvent(s, e).None? ==> Step(env, s, e).queue == s.queue
  {
  }

  ghost predicate QueueOk(queue: Processor.State) {
    Processor.Inv(queue) && Processor.Leaky(queue)
  }

  lemma {:induction false} RunKeepsQueue(env: Env, states: seq<State>, events: seq<Event>, i: nat)
    requires IsRun(env, states, events) && i < |states|
    ensures QueueOk(states[i].queue)
  {
    if i > 0 && !events[i - 1].Restart? {
      RunKeepsQueue(env, states, events, i - 1);
      var s, e := states[i - 1], events[i - 1];
      QueueMoves(env, s, e);
      if QueueEvent(s, e).Some? {
        Processor.StepKeepsInv(Processor.AsWritten, s.queue, QueueEvent(s, e).value);
        Processor.StepKeepsLeaky(s.queue, QueueEvent(s, e).value);
      }
    }
  }

  /** A job for this identifier and width has left its worker, and no variant of them is stored. */
  ghost predicate IsGivenUp(s: State, id: string, w: int) {
    FlightKey(id, w) in s.queue.done && VariantKey(id, w) !in s.bucket
  }

  /** Every job that ends without saving leaves this behind, unless the variant is there already. */
  lemma EndsGivenUp(env: Env, s: State, w: nat)
    requires s.IsWorking(w)
    requires VariantKey(s.queue.Worker(w).job.id, s.queue.Worker(w).job.width) !in s.bucket
    ensures var job, ended := s.queue.Worker(w).job, Step(env, s, EndJob(w));
      && Enabled(env, ended, Queue(Processor.Release(w)))
      && IsGivenUp(Step(env, ended, Queue(Processor.Release(w))), job.id, job.width)
  {
    var job, ended := s.queue.Worker(w).job, Step(env, s, EndJob(w));
    assert ended.queue.Worker(w) == Processor.Finished(job);
  }

  /** Nobody works for it, so nobody saves the variant. */
  lemma GivenUpStep(env: Env, s: State, e: Event, id: string, w: int)
    requires QueueOk(s.queue) && Enabled(env, s, e) && !e.Restart? && IsGivenUp(s, id, w)
    ensures IsGivenUp(Step(env, s, e), id, w)
  {
    QueueMoves(env, s, e);
    if e.SaveVariant? {
      var job := s.queue.Worker(e.w).job;
      assert Processor.HasKey(s.queue, Processor.Running(e.w), job.Key());
      assert !Processor.Active(s.queue, FlightKey(id, w));
      if VariantKey(job.id, job.width) == VariantKey(id, w) {
        VariantKeyInjective(job.id, job.width, id, w);
        assert false;
      }
    }
  }

  /** A step of the request answers it with the variant of this identifier and width. */
  ghost predicate IsNewHit(s: State, s': State, r: nat, u: Uuid, w: int) {
    && r in s'.requests && s'.requests[r].Answered? && s'.requests[r].answer.Variant?
    && s'.requests[r].answer.u == u && s'.requests[r].answer.w == w
    && !(r in s.requests && s.requests[r] == s'.requests[r])
  }

  lemma NoHitStep(env: Env, s: State, e: Event, r: nat, u: Uuid, w: int)
    requires Enabled(env, s, e) && Assets.IsUuid(u) && VariantKey(Assets.Show(u), w) !in s.bucket
    ensures !IsNewHit(s, Step(env, s, e), r, u, w)
  {
    var key := VariantKey(Assets.Show(u), w);
    assert Trimmed(key) by { assert key[0] == Assets.Show(u)[0] && key[|key| - 1] == 'p'; }
  }

  predicate NoRestart(events: seq<Event>, i: nat, j: nat)
    requires j <= |events|
  {
    forall k :: i <= k < j ==> !events[k].Restart?
  }

  lemma GivenUpNext(env: Env, states: seq<State>, events: seq<Event>, i: nat, id: string, w: int)
    requires IsRun(env, states, events) && i < |events| && !events[i].Restart? && IsGivenUp(states[i], id, w)
    ensures IsGivenUp(states[i + 1], id, w)
  {
    RunKeepsQueue(env, states, events, i);
    GivenUpStep(env, states[i], events[i], id, w);
  }

  lemma {:induction false} GivenUpStays(
      env: Env, states: seq<State>, events: seq<Event>, i: nat, j: nat, id: string, w: int)
    requires IsRun(env, states, events) && i <= j < |states| && IsGivenUp(states[i], id, w)
    requires NoRestart(events, i, j)
    ensures IsGivenUp(states[j], id, w)
  {
    if i < j {
      GivenUpStays(env, states, events, i, j - 1, id, w);
      GivenUpNext(env, states, events, j - 1, id, w);
    }
  }

  /**
   What the wrong key costs: after a job that ended without its variant, no request is a HIT for that identifier and
   width until the process restarts, whatever is asked for and enqueued meanwhile.
   */
  lemma NoHitUntilRestart(
      env: Env, states: seq<State>, events: seq<Event>, i: nat, j: nat, r: nat, u: Uuid, w: int)
    requires IsRun(env, states, events) && i <= j < |events| && Assets.IsUuid(u)
    requires NoRestart(events, i, j)
    requires IsGivenUp(states[i], Assets.Show(u), w)
    ensures IsGivenUp(states[j], Assets.Show(u), w)
    ensures !IsNewHit(states[j], states[j + 1], r, u, w)
  {
    GivenUpStays(env, states, events, i, j, Assets.Show(u), w);
    NoHitStep(env, states[j], events[j], r, u, w);
  }
}
