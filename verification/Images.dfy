/**
 The pipeline's parts as code: the uploader of sources (internal/content/sync.go), a worker's job
 (internal/content/webp_processor.go) and the asset handler (internal/handlers/assets.go), over one bucket.
 */
module Images {
  import opened Prelude
  import opened Keys
  import opened Slug
  import opened Pipeline
  import Assets
  import Processor
  import Serve

  /** The bucket. Each call says whether the network carries it: a lookup that is not carried finds nothing. */
  class ObjectStore {
    var objects: Objects

    constructor ()
      ensures objects == map[]
    {
      objects := map[];
    }

    method Exists(key: string, carried: bool) returns (found: bool)
      ensures found <==> carried && Pipeline.Open(objects, key).Some?
    {
      if key == "" {
        return false;
      }
      return carried && TrimSpace(key) in objects;
    }

    method Open(key: string, carried: bool) returns (body: Option<Bytes>)
      ensures body == if carried then Pipeline.Open(objects, key) else None
    {
      if key == "" {
        return None;
      }
      if carried && TrimSpace(key) in objects {
        return Some(objects[TrimSpace(key)]);
      }
      return None;
    }

    method Save(key: string, body: Bytes, carried: bool) returns (ok: bool)
      modifies this
      ensures ok == carried
      ensures objects == if carried then old(objects)[key := body] else old(objects)
    {
      if carried {
        objects := objects[key := body];
      }
      return carried;
    }
  }

  // ---- SyncAssets ----

  /** What the walk meets: a file, with its content unless it cannot be opened, or an error of the walk itself. */
  datatype Entry =
    | SourceFile(key: string, body: Option<Bytes>)
    | WalkError

  /**
   An entry that ends the walk. The path of an image is made absolute and then relative to the source directory,
   which cannot be done for a directory that was not given as an absolute path.
   */
  ghost predicate Stops(absolute: bool, entry: Entry) {
    entry.WalkError? || (IsImageName(entry.key) && !absolute)
  }

  /** The walk gets past this entry. */
  ghost predicate Passes(absolute: bool, entries: seq<Entry>, i: nat)
    requires i < |entries|
  {
    forall n :: 0 <= n <= i ==> !Stops(absolute, entries[n])
  }

  /** The object under a key is the one that was there, or the content of a file of the walk. */
  ghost predicate FromWalk(before: Objects, entries: seq<Entry>, key: string, body: Bytes) {
    || (key in before && before[key] == body)
    || exists i :: 0 <= i < |entries| && entries[i] == SourceFile(key, Some(body)) && IsImageName(key)
  }

  ghost predicate IsStored(objects: Objects, entry: Entry, saved: bool) {
    entry.SourceFile? && IsImageName(entry.key) && entry.body.Some? && saved ==>
      TrimSpace(entry.key) in objects || entry.key in objects
  }

  ghost predicate AllCarried(calls: nat -> bool) {
    forall i :: calls(i)
  }

  /** Nothing readable is overwritten, and so every variant stays one of its source. */
  ghost predicate WritesOnce(before: Objects, after: Objects) {
    Grows(before, after) && forall env, used | VariantsOk(env, used, before) :: VariantsOk(env, used, after)
  }

  lemma SyncPut(objects: Objects, key: string, body: Bytes)
    requires IsSourceKey(key) && Pipeline.Open(objects, key).None?
    ensures WritesOnce(objects, objects[key := body])
  {
    FamiliesApart(key);
    assert Ext("") == "" && LowerAll("") == "";
    assert MayPut(objects, key, body);
    forall env, used | VariantsOk(env, used, objects) ensures VariantsOk(env, used, objects[key := body]) {
      PutKeeps(env, used, objects, key, body);
    }
  }

  /** One file of the walk; a failed lookup reads as a missing object. */
  method SyncFile(store: ObjectStore, file: Entry, lookedUp: bool, saved: bool)
    requires file.SourceFile? && IsSourceKey(file.key) && IsImageName(file.key)
    modifies store
    ensures lookedUp ==> WritesOnce(old(store.objects), store.objects)
    ensures store.objects == old(store.objects)
      || (file.body.Some? && store.objects == old(store.objects)[file.key := file.body.value])
    ensures IsStored(store.objects, file, saved)
  {
    var there := store.Exists(file.key, lookedUp);
    if there {
      return;
    }
    if file.body.None? {
      return;
    }
    if lookedUp {
      SyncPut(store.objects, file.key, file.body.value);
    }
    var _ := store.Save(file.key, file.body.value, saved);
  }

  /** `isThere`: the source directory can be opened; `absolute`: it was given as an absolute path. */
  method SyncAssets(
      store: ObjectStore, isThere: bool, absolute: bool, entries: seq<Entry>, lookedUp: nat -> bool, saved: nat -> bool)
    returns (ok: bool)
    modifies store
    // an error exactly when the directory cannot be opened, or the walk meets what ends it
    ensures ok <==> isThere && forall i :: 0 <= i < |entries| ==> !Stops(absolute, entries[i])
    // a directory given by a relative path is never synced at all
    ensures !isThere || !absolute ==> store.objects == old(store.objects)
    // as long as every lookup gets its answer
    ensures AllCarried(lookedUp) ==> WritesOnce(old(store.objects), store.objects)
    // only files of the walk with an image's extension are written, under their own keys
    ensures forall key :: key in store.objects ==> FromWalk(old(store.objects), entries, key, store.objects[key])
    ensures old(store.objects).Keys <= store.objects.Keys
    // and every one that the walk reaches, and that could be read and saved, is there
    ensures isThere ==> forall i :: 0 <= i < |entries| && Passes(absolute, entries, i) ==>
      IsStored(store.objects, entries[i], saved(i))
  {
    if !isThere {
      return false;
    }
    ghost var before := store.objects;
    for i := 0 to |entries|
      invariant forall n :: 0 <= n < i ==> !Stops(absolute, entries[n])
      invariant !absolute ==> store.objects == before
      invariant AllCarried(lookedUp) ==> WritesOnce(before, store.objects)
      invariant forall key :: key in store.objects ==> FromWalk(before, entries, key, store.objects[key])
      invariant before.Keys <= store.objects.Keys
      invariant forall n :: 0 <= n < i ==> IsStored(store.objects, entries[n], saved(n))
    {
      if entries[i].WalkError? {
        return false;
      }
      SourceKeyIff(entries[i].key);
      if IsSourceKey(entries[i].key) {
        if !absolute {
          return false;
        }
        ghost var now := store.objects;
        SyncFile(store, entries[i], lookedUp(i), saved(i));
        if AllCarried(lookedUp) {
          GrowsTrans(before, now, store.objects);
        }
      }
    }
    return true;
  }

  // ---- a worker's job ----

  /** The sizes generateVariant draws: narrower images are left alone. */
  function Scaled(dx: int, dy: int, maxWidth: int): (int, int)
    requires maxWidth > 0
  {
    if dx <= maxWidth then (dx, dy) else (maxWidth, dy * maxWidth / dx)
  }

  /**
   Scaling never enlarges, keeps the shape to within one row, and gives no image at all exactly when the source is
   wider than the width allows and flatter than one row of the result.
   */
  lemma ScaledShape(dx: int, dy: int, maxWidth: int)
    requires dx > 0 && dy > 0 && maxWidth > 0
    ensures var (w, h) := Scaled(dx, dy, maxWidth);
      && 0 < w <= maxWidth && w <= dx && 0 <= h <= dy
      && h * dx <= dy * w < (h + 1) * dx
      && (h == 0 <==> dx > maxWidth && dy * maxWidth < dx)
      && Scaled(w, h, maxWidth) == (w, h)
  {
    if dx > maxWidth {
      Quotient(dy * maxWidth, dx);
      Shrinks(dy * maxWidth / dx, dx, dy, maxWidth);
    } else {
      assert dy * dx < (dy + 1) * dx;
    }
  }

  lemma Quotient(x: int, d: int)
    requires d > 0 && x >= 0
    ensures x / d * d <= x < (x / d + 1) * d && x / d >= 0
    ensures x / d == 0 <==> x < d
  {
  }

  lemma Shrinks(h: int, dx: int, dy: int, maxWidth: int)
    requires 0 < maxWidth <= dx && 0 < dy && h * dx <= dy * maxWidth
    ensures h <= dy
  {
    assert dy * maxWidth <= dy * dx;
    if h > dy {
      assert h * dx > dy * dx by { Above(h, dy, dx); }
    }
  }

  lemma Above(a: int, b: int, d: int)
    requires a > b && d > 0
    ensures a * d > b * d
  {
  }

  ghost predicate IsStoredVariant(objects: Objects, job: Processor.Job) {
    Pipeline.Open(objects, VariantKey(job.id, job.width)).Some? || VariantKey(job.id, job.width) in objects
  }

  /** The bucket as it was, or with the variant of the job's source under the job's key. */
  ghost predicate IsJobDone(env: Env, before: Objects, job: Processor.Job, after: Objects) {
    || after == before
    || exists bytes :: MadeFrom(env, before, job.path, job.width, bytes)
         && after == before[VariantKey(job.id, job.width) := bytes]
  }

  /** Every job of a path in use keeps what EveryHitIsTheVariant rests on. */
  lemma JobKeeps(env: Env, used: set<string>, before: Objects, job: Processor.Job, after: Objects)
    requires env.lib.Sound() && Assets.NoCollision(env.lib, env.ns, used)
    requires VariantsOk(env, used, before) && JobOk(env, used, job) && IsJobDone(env, before, job, after)
    ensures Grows(before, after) && VariantsOk(env, used, after)
  {
    if after != before {
      var bytes :| MadeFrom(env, before, job.path, job.width, bytes)
        && after == before[VariantKey(job.id, job.width) := bytes];
      SaveKeeps(env, used, before, job.path, job.width, bytes);
    }
  }

  /**
   ProcessJob; `carried` says which of its three bucket calls get through, `cancelled` that the process is stopping.
   */
  method ProcessJob(store: ObjectStore, env: Env, job: Processor.Job, carried: nat -> bool, cancelled: bool)
    modifies store
    ensures IsJobDone(env, old(store.objects), job, store.objects)
    // with no failure, the variant is there afterwards if its source can be read and decoded
    ensures AllCarried(carried) && !cancelled ==>
      || IsStoredVariant(store.objects, job)
      || forall bytes :: !MadeFrom(env, old(store.objects), job.path, job.width, bytes)
  {
    var destKey := VariantKey(job.id, job.width);
    var done := store.Exists(destKey, carried(0));
    if done || cancelled {
      return;
    }
    var source := store.Open(job.path, carried(1));
    if source.None? {
      return;
    }
    var processed := env.variant(source.value, job.width);
    if processed.None? {
      return;
    }
    assert MadeFrom(env, store.objects, job.path, job.width, processed.value);
    var _ := store.Save(destKey, processed.value, carried(2));
  }

  // ---- the handler ----

  ghost predicate IsNewJob(job: Processor.Job, path: string, u: Uuid, inFlight: set<string>) {
    && job.path == path && Assets.IsUuid(u) && job.id == Assets.Show(u)
    && job.width in {800, 1200, 1920} && job.Key() !in inFlight
  }

  /** What was queued since: jobs for this path and identifier that were not under way, no two of one width. */
  ghost predicate NewJobs(jobs: seq<Processor.Job>, from: nat, path: string, u: Uuid, inFlight: set<string>) {
    && (forall k :: from <= k < |jobs| ==> IsNewJob(jobs[k], path, u, inFlight))
    && (forall k, n :: from <= k < n < |jobs| ==> jobs[k].width != jobs[n].width)
  }

  ghost predicate HasJob(jobs: seq<Processor.Job>, from: nat, width: int) {
    exists k :: from <= k < |jobs| && jobs[k].width == width
  }

  /** The width is in flight now, by a new job if and only if it was not before. */
  ghost predicate IsOffered(
      inFlight: set<string>, inFlight': set<string>, jobs: seq<Processor.Job>, from: nat, u: Uuid, width: int)
  {
    && Assets.IsUuid(u) && FlightKey(Assets.Show(u), width) in inFlight'
    && (HasJob(jobs, from, width) <==> FlightKey(Assets.Show(u), width) !in inFlight)
  }

  ghost predicate OffersFirst(
      inFlight: set<string>, inFlight': set<string>, jobs: seq<Processor.Job>, from: nat, u: Uuid, n: nat)
    requires n <= |Serve.WIDTHS|
  {
    forall k :: 0 <= k < n ==> IsOffered(inFlight, inFlight', jobs, from, u, Serve.WIDTHS[k])
  }

  /** One call of Enqueue for one width. */
  ghost predicate IsEnqueued(
      inFlight: set<string>, inFlight': set<string>, jobs: seq<Processor.Job>, jobs': seq<Processor.Job>,
      job: Processor.Job, ok: bool)
  {
    && jobs' == jobs + (if ok && job.Key() !in inFlight then [job] else [])
    && inFlight' == inFlight + (if ok then {job.Key()} else {})
  }

  function WidthKeys(u: Uuid, n: nat): set<string>
    requires Assets.IsUuid(u) && n <= |Serve.WIDTHS|
  {
    set k | 0 <= k < n :: FlightKey(Assets.Show(u), Serve.WIDTHS[k])
  }

  lemma NextKeyIsNew(u: Uuid, n: nat)
    requires Assets.IsUuid(u) && n < |Serve.WIDTHS|
    ensures FlightKey(Assets.Show(u), Serve.WIDTHS[n]) !in WidthKeys(u, n)
    ensures WidthKeys(u, n + 1) == WidthKeys(u, n) + {FlightKey(Assets.Show(u), Serve.WIDTHS[n])}
  {
    var id, width := Assets.Show(u), Serve.WIDTHS[n];
    forall k | 0 <= k < n ensures FlightKey(id, Serve.WIDTHS[k]) != FlightKey(id, width) {
      if FlightKey(id, Serve.WIDTHS[k]) == FlightKey(id, width) {
        FlightKeyInjective(id, Serve.WIDTHS[k], id, width);
      }
    }
  }

  lemma HasJobNext(jobs: seq<Processor.Job>, job: Processor.Job, from: nat, width: int)
    requires from <= |jobs|
    ensures HasJob(jobs + [job], from, width) <==> HasJob(jobs, from, width) || job.width == width
  {
    var more := jobs + [job];
    assert more[|jobs|] == job;
    if HasJob(jobs, from, width) {
      var k :| from <= k < |jobs| && jobs[k].width == width;
      assert more[k] == jobs[k];
    }
  }

  /** The state of the queue while widths are offered: what was there before, and what is now. */
  ghost predicate Offering(
      inFlight0: set<string>, inFlight: set<string>, jobs: seq<Processor.Job>, from: nat, path: string, u: Uuid, n: nat)
    requires n <= |Serve.WIDTHS|
  {
    && from <= |jobs| && Assets.IsUuid(u) && inFlight0 <= inFlight <= inFlight0 + WidthKeys(u, n)
    && NewJobs(jobs, from, path, u, inFlight0)
    && forall k :: n <= k < |Serve.WIDTHS| ==> !HasJob(jobs, from, Serve.WIDTHS[k])
  }

  /** A new job has a width of its own. */
  lemma NewJobsNext(
      jobs: seq<Processor.Job>, from: nat, path: string, u: Uuid, inFlight: set<string>, job: Processor.Job)
    requires from <= |jobs| && NewJobs(jobs, from, path, u, inFlight) && IsNewJob(job, path, u, inFlight)
    requires !HasJob(jobs, from, job.width)
    ensures NewJobs(jobs + [job], from, path, u, inFlight)
  {
    var more := jobs + [job];
    assert forall k :: 0 <= k < |jobs| ==> more[k] == jobs[k];
    forall k, n | from <= k < n < |more| ensures more[k].width != more[n].width {
      if n == |jobs| { assert !HasJob(jobs, from, job.width); }
    }
  }

  lemma NoJobYet(jobs: seq<Processor.Job>, from: nat, job: Processor.Job, n: nat)
    requires from <= |jobs| && n < |Serve.WIDTHS| && job.width == Serve.WIDTHS[n]
    requires forall k :: n <= k < |Serve.WIDTHS| ==> !HasJob(jobs, from, Serve.WIDTHS[k])
    ensures forall k :: n < k < |Serve.WIDTHS| ==> !HasJob(jobs + [job], from, Serve.WIDTHS[k])
  {
    forall k | n < k < |Serve.WIDTHS| ensures !HasJob(jobs + [job], from, Serve.WIDTHS[k]) {
      HasJobNext(jobs, job, from, Serve.WIDTHS[k]);
    }
  }

  lemma OfferingNext(
      inFlight0: set<string>, inFlight: set<string>, inFlight': set<string>, jobs: seq<Processor.Job>,
      jobs': seq<Processor.Job>, from: nat, path: string, u: Uuid, n: nat, ok: bool)
    requires n < |Serve.WIDTHS| && Offering(inFlight0, inFlight, jobs, from, path, u, n)
    requires IsEnqueued(inFlight, inFlight', jobs, jobs', Processor.Job(path, Assets.Show(u), Serve.WIDTHS[n]), ok)
    ensures Offering(inFlight0, inFlight', jobs', from, path, u, n + 1)
  {
    var job := Processor.Job(path, Assets.Show(u), Serve.WIDTHS[n]);
    NextKeyIsNew(u, n);
    if ok && job.Key() !in inFlight {
      NewJobsNext(jobs, from, path, u, inFlight0, job);
      NoJobYet(jobs, from, job, n);
    } else {
      assert jobs' == jobs;
    }
  }

  lemma StaysOffered(
      inFlight0: set<string>, inFlight: set<string>, inFlight': set<string>, jobs: seq<Processor.Job>,
      jobs': seq<Processor.Job>, from: nat, u: Uuid, width: int, job: Processor.Job)
    requires from <= |jobs| && IsOffered(inFlight0, inFlight, jobs, from, u, width) && job.width != width
    requires IsEnqueued(inFlight, inFlight', jobs, jobs', job, true)
    ensures IsOffered(inFlight0, inFlight', jobs', from, u, width)
  {
    HasJobNext(jobs, job, from, width);
    if job.Key() in inFlight { assert jobs' == jobs; }
  }

  lemma NowOffered(
      inFlight0: set<string>, inFlight: set<string>, inFlight': set<string>, jobs: seq<Processor.Job>,
      jobs': seq<Processor.Job>, from: nat, u: Uuid, job: Processor.Job)
    requires from <= |jobs| && Assets.IsUuid(u) && job.id == Assets.Show(u)
    requires !HasJob(jobs, from, job.width) && (job.Key() in inFlight <==> job.Key() in inFlight0)
    requires IsEnqueued(inFlight, inFlight', jobs, jobs', job, true)
    ensures IsOffered(inFlight0, inFlight', jobs', from, u, job.width)
  {
    HasJobNext(jobs, job, from, job.width);
    if job.Key() in inFlight { assert jobs' == jobs; }
  }

  lemma OffersNext(
      inFlight0: set<string>, inFlight: set<string>, inFlight': set<string>, jobs: seq<Processor.Job>,
      jobs': seq<Processor.Job>, from: nat, path: string, u: Uuid, n: nat)
    requires n < |Serve.WIDTHS| && Offering(inFlight0, inFlight, jobs, from, path, u, n)
    requires OffersFirst(inFlight0, inFlight, jobs, from, u, n)
    requires IsEnqueued(inFlight, inFlight', jobs, jobs', Processor.Job(path, Assets.Show(u), Serve.WIDTHS[n]), true)
    ensures OffersFirst(inFlight0, inFlight', jobs', from, u, n + 1)
  {
    var job := Processor.Job(path, Assets.Show(u), Serve.WIDTHS[n]);
    NextKeyIsNew(u, n);
    NowOffered(inFlight0, inFlight, inFlight', jobs, jobs', from, u, job);
    forall k | 0 <= k < n ensures IsOffered(inFlight0, inFlight', jobs', from, u, Serve.WIDTHS[k]) {
      StaysOffered(inFlight0, inFlight, inFlight', jobs, jobs', from, u, Serve.WIDTHS[k], job);
    }
  }

  class AssetHandler {
    const env: Env
    const store: ObjectStore
    const assets: Assets.AssetManager
    const processor: Processor.Processor

    constructor (env: Env, store: ObjectStore, assets: Assets.AssetManager, processor: Processor.Processor)
      ensures this.env == env && this.store == store && this.assets == assets && this.processor == processor
    {
      this.env, this.store, this.assets, this.processor := env, store, assets, processor;
    }

    /** All three widths, whichever was asked for; the errors of Enqueue are dropped. */
    method EnqueueAll(path: string, u: Uuid, expired: nat -> bool)
      requires |processor.jobs| <= Processor.QUEUE_CAP && Assets.IsUuid(u)
      modifies processor
      ensures |processor.jobs| <= Processor.QUEUE_CAP
      ensures old(processor.jobs) <= processor.jobs && old(processor.inFlight) <= processor.inFlight
      ensures NewJobs(processor.jobs, |old(processor.jobs)|, path, u, old(processor.inFlight))
      // with room for three, and nothing expired, each is under way afterwards, by one job more if it was not
      ensures |old(processor.jobs)| + 3 <= Processor.QUEUE_CAP && (forall i :: !expired(i)) ==>
        forall width :: width in {800, 1200, 1920} ==>
          IsOffered(old(processor.inFlight), processor.inFlight, processor.jobs, |old(processor.jobs)|, u, width)
    {
      ghost var jobs, inFlight := processor.jobs, processor.inFlight;
      ghost var quick := |jobs| + 3 <= Processor.QUEUE_CAP && forall n :: !expired(n);
      for i := 0 to |Serve.WIDTHS|
        invariant |processor.jobs| <= Processor.QUEUE_CAP && |processor.jobs| <= |jobs| + i
        invariant jobs <= processor.jobs
        invariant Offering(inFlight, processor.inFlight, processor.jobs, |jobs|, path, u, i)
        invariant quick ==> OffersFirst(inFlight, processor.inFlight, processor.jobs, |jobs|, u, i)
      {
        ghost var jobs1, inFlight1 := processor.jobs, processor.inFlight;
        var job := Processor.Job(path, Assets.Show(u), Serve.WIDTHS[i]);
        var ok := processor.Enqueue(job, expired(i));
        OfferingNext(inFlight, inFlight1, processor.inFlight, jobs1, processor.jobs, |jobs|, path, u, i, ok);
        if quick {
          OffersNext(inFlight, inFlight1, processor.inFlight, jobs1, processor.jobs, |jobs|, path, u, i);
        }
      }
      assert Serve.WIDTHS[0] == 800 && Serve.WIDTHS[1] == 1200 && Serve.WIDTHS[2] == 1920;
    }

    method ServeHTTP(key: string, carried: nat -> bool, expired: nat -> bool) returns (answer: Answer)
      requires env.lib.Sound() && |processor.jobs| <= Processor.QUEUE_CAP
      modifies processor
      ensures |processor.jobs| <= Processor.QUEUE_CAP
      ensures answer.BadRequest? <==> Serve.ParseKey(env.lib, key).BadRequest?
      // a hit: the object under the variant's key, and nothing enqueued
      ensures answer.Variant? ==>
        && Serve.ParseKey(env.lib, key) == Serve.Asset(answer.u, answer.w) && Assets.IsUuid(answer.u)
        && Pipeline.Open(store.objects, VariantKey(Assets.Show(answer.u), answer.w)) == Some(answer.bytes)
        && processor.jobs == old(processor.jobs) && processor.inFlight == old(processor.inFlight)
      // a miss: the source behind the identifier
      ensures answer.Source? ==>
        && Serve.ParseKey(env.lib, key).Asset? && Serve.ParseKey(env.lib, key).uuid == answer.u
        && Assets.Relative(assets.State(), answer.u) == Ok(answer.path)
        && Pipeline.Open(store.objects, answer.path) == Some(answer.bytes)
      // nothing is queued except at a miss for a known identifier
      ensures !Misses(key, carried) ==>
        processor.jobs == old(processor.jobs) && processor.inFlight == old(processor.inFlight)
      ensures Misses(key, carried) ==>
        && old(processor.jobs) <= processor.jobs && old(processor.inFlight) <= processor.inFlight
        && NewJobs(processor.jobs, |old(processor.jobs)|,
                   Assets.Relative(assets.State(), Serve.ParseKey(env.lib, key).uuid).value,
                   Serve.ParseKey(env.lib, key).uuid, old(processor.inFlight))
      // and then every width is under way, by one job more if it was not, if there is room for three and time
      ensures Misses(key, carried) && |old(processor.jobs)| + 3 <= Processor.QUEUE_CAP && (forall i :: !expired(i)) ==>
        forall width :: width in {800, 1200, 1920} ==>
          IsOffered(old(processor.inFlight), processor.inFlight, processor.jobs, |old(processor.jobs)|,
                    Serve.ParseKey(env.lib, key).uuid, width)
      // when nothing fails the variant is the answer exactly where it is stored, and the source where only that is
      ensures AllCarried(carried) ==>
        && (answer.Variant? <==> IsVariantStored(key))
        && (answer.Source? <==> !IsVariantStored(key) && IsSourceStored(key))
    {
      var request := Serve.ParseKey(env.lib, key);
      if request.NotFound? {
        return NotFound;
      }
      if request.BadRequest? {
        return BadRequest;
      }
      var u, w := request.uuid, request.width;
      Serve.AcceptedKey(env.lib, key, u, w);
      var variantKey := VariantKey(Assets.Show(u), w);
      var hit := store.Exists(variantKey, carried(0));
      if hit {
        var found := store.Open(variantKey, carried(1));
        if found.None? {
          return NotFound;
        }
        return Variant(u, w, found.value);
      }
      var relPath := assets.GetRelativePath(u);
      if relPath.Err? {
        return NotFound;
      }
      EnqueueAll(relPath.value, u, expired);
      var source := store.Open(relPath.value, carried(1));
      if source.None? {
        return NotFound;
      }
      return Source(u, relPath.value, source.value);
    }

    /** The variant that the key asks for is in the bucket. */
    ghost predicate IsVariantStored(key: string)
      reads store
    {
      match Serve.ParseKey(env.lib, key)
      case Asset(u, w) => Assets.IsUuid(u) && Pipeline.Open(store.objects, VariantKey(Assets.Show(u), w)).Some?
      case _ => false
    }

    /** The key names a path that has been entered, and its source is in the bucket. */
    ghost predicate IsSourceStored(key: string)
      reads store, assets
    {
      match Serve.ParseKey(env.lib, key)
      case Asset(u, w) =>
        && Assets.Relative(assets.State(), u).Ok?
        && Pipeline.Open(store.objects, Assets.Relative(assets.State(), u).value).Some?
      case _ => false
    }

    /** A request for an entered path whose variant is not seen. */
    ghost predicate Misses(key: string, carried: nat -> bool)
      reads store, assets
    {
      match Serve.ParseKey(env.lib, key)
      case Asset(u, w) => !(carried(0) && IsVariantStored(key)) && Assets.Relative(assets.State(), u).Ok?
      case _ => false
    }
  }
}
