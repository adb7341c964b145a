/**
 The seeder (internal/seeder/seeder.go): at every start it walks the source tree, inserts rows, makes folders,
 renames files and uploads bodies, with no transaction. Every step has an outcome given by the run's fault plan;
 a process that stops is one whose every later step is refused. Listings come in an arbitrary order.
 */
module Seeder {
  import opened Prelude
  import opened Slug
  import opened PublicId
  import opened Database
  import opened SeedWorld
  import opened SeedSettled
  import opened BlogSettled
  import opened SeedRun
  import opened SeedStill
  import opened SeedContents

  /** What becomes of a step: it is done, it is not, or it is done but its answer is lost. */
  datatype Outcome = Done | NotDone | Unanswered

  class Disk {
    var files: map<Path, File>
    var dirs: set<Path>

    constructor (files: map<Path, File>, dirs: set<Path>)
      ensures this.files == files && this.dirs == dirs
    {
      this.files, this.dirs := files, dirs;
    }
  }

  class Bucket {
    var objects: map<string, string>

    constructor ()
      ensures objects == map[]
    {
      objects := map[];
    }
  }

  ghost function Snapshot(disk: Disk, store: Store, bucket: Bucket): World
    reads disk, store, bucket
  {
    World(disk.files, disk.dirs, store.Rows(), store.origin, bucket.objects)
  }

  /** The elements of a finite set, each once. */
  method Arrange<T(==)>(s: set<T>) returns (q: seq<T>)
    ensures forall x :: x in q <==> x in s
    ensures forall i, j :: 0 <= i < j < |q| ==> q[i] != q[j]
  {
    q := [];
    var rest := s;
    while rest != {}
      invariant rest <= s
      invariant forall x :: x in q <==> x in s && x !in rest
      invariant forall i, j :: 0 <= i < j < |q| ==> q[i] != q[j]
      decreases rest
    {
      var x := Pick(rest);
      ghost var before := q;
      q := q + [x];
      assert forall y :: y in q <==> y in before || y == x;
      rest := rest - {x};
    }
  }

  lemma {:induction false} OneName(names: set<string>, q: seq<string>)
    requires forall x :: x in q <==> x in names
    requires forall i, j :: 0 <= i < j < |q| ==> q[i] != q[j]
    ensures |names| == |q|
  {
    if q == [] {
      assert names == {};
    } else {
      var rest := names - {q[0]};
      assert forall x :: x in q[1..] <==> x in rest;
      OneName(rest, q[1..]);
    }
  }

  /** A folder whose name the generator may draw already has its row. */
  ghost predicate ClearOf(w: World, ids: nat -> string) {
    forall p, n :: p in w.dirs && |p| == 2 && p[1] == ids(n) ==> p[1] in w.db.posts
  }

  lemma ClearStays(w: World, w': World, ids: nat -> string)
    requires ClearOf(w, ids) && FoldersKept(w, w') && w.db.posts.Keys <= w'.db.posts.Keys
    ensures ClearOf(w', ids)
  {
  }

  // ---- the identifiers a run draws ----

  /** How a run stands: the identifiers that have rows, how many it has drawn, and whether all has gone smoothly. */
  datatype Draws = Draws(taken: set<string>, drawn: nat, smooth: bool)

  /** The draws from one number up to another are new, and differ. */
  ghost predicate Fresh(ids: nat -> string, taken: set<string>, from: nat, to: nat) {
    && (forall n :: from <= n < to ==> ids(n) !in taken)
    && (forall m, n :: from <= m < n < to ==> ids(m) != ids(n))
  }

  ghost predicate DrawnBetween(ids: nat -> string, id: string, from: nat, to: nat) {
    exists n :: from <= n < to && ids(n) == id
  }

  ghost predicate NeverDrawn(ids: nat -> string, id: string) {
    forall n :: ids(n) != id
  }

  /**
   From one point of a run to a later one: new rows have drawn identifiers, or ones never drawn; and if no step
   fails and the draws in between are fresh, nothing goes wrong.
   */
  ghost predicate Tracked(ids: nat -> string, allDone: bool, a: Draws, b: Draws) {
    && a.drawn <= b.drawn
    && (b.smooth ==> a.smooth)
    && (forall id :: id in b.taken && id !in a.taken ==>
          DrawnBetween(ids, id, a.drawn, b.drawn) || NeverDrawn(ids, id))
    && (allDone && a.smooth && Fresh(ids, a.taken, a.drawn, b.drawn) ==> b.smooth)
  }

  lemma FreshRest(ids: nat -> string, a: Draws, b: Draws, to: nat)
    requires Fresh(ids, a.taken, a.drawn, to) && a.drawn <= b.drawn <= to
    requires forall id :: id in b.taken && id !in a.taken ==>
      DrawnBetween(ids, id, a.drawn, b.drawn) || NeverDrawn(ids, id)
    ensures Fresh(ids, b.taken, b.drawn, to)
  {
    forall n | b.drawn <= n < to ensures ids(n) !in b.taken {
      assert !NeverDrawn(ids, ids(n));
      assert !DrawnBetween(ids, ids(n), a.drawn, b.drawn);
    }
  }

  lemma TrackedTrans(ids: nat -> string, allDone: bool, a: Draws, b: Draws, c: Draws)
    requires Tracked(ids, allDone, a, b) && Tracked(ids, allDone, b, c)
    ensures Tracked(ids, allDone, a, c)
  {
    if Fresh(ids, a.taken, a.drawn, c.drawn) { FreshRest(ids, a, b, c.drawn); }
    forall id | id in c.taken && id !in a.taken
      ensures DrawnBetween(ids, id, a.drawn, c.drawn) || NeverDrawn(ids, id)
    {
      if id in b.taken {
        assert DrawnBetween(ids, id, a.drawn, b.drawn) || NeverDrawn(ids, id);
      } else {
        assert DrawnBetween(ids, id, b.drawn, c.drawn) || NeverDrawn(ids, id);
      }
    }
  }

  /** The loose post files of some blog folders. */
  function LooseIn(files: map<Path, File>, dirs: set<string>): set<Path> {
    set p | p in files && |p| == 2 && IsMd(p) && p[0] in dirs
  }

  function LooseFiles(files: map<Path, File>): set<Path> {
    set p | p in files && |p| == 2 && IsMd(p)
  }

  // ---- what one call on a post, or on a manifest, has done ----

  lemma ReplayMore(formats: Formats, w: World, run: seq<Effect>, more: seq<Effect>, w': World)
    requires w' == Replay(formats, Replay(formats, w, run), more)
    ensures w' == Replay(formats, w, run + more)
  {
    ReplayAppend(formats, w, run, more);
  }

  ghost predicate IsSeeding(formats: Formats, w: World, path: Path, given: string, run: seq<Effect>) {
    run == [] || (
      && |run| == 1 && run[0].PostEffect? && run[0].path == path && run[0].loose == (given == "")
      && (given != "" ==> run[0].publicId == given)
      && Legal(formats, w, run[0]))
  }

  ghost predicate IsBlogSeeding(formats: Formats, w: World, path: Path, run: seq<Effect>) {
    run == [] || (|run| == 1 && run[0].BlogEffect? && run[0].path == path && Legal(formats, w, run[0]))
  }

  /** A whole seedPost, or none for a file that is refused or has its row. */
  ghost predicate FileSeeded(formats: Formats, w: World, w': World, path: Path, given: string)
    requires path != []
  {
    && CalmStep(formats, w, w', path, given == "")
    && if Refused(formats, w, path) || (given != "" && given in w.db.posts) then w' == w
       else if given == "" then path !in w'.files
       else given in w'.db.posts
  }

  lemma CalmSeed(formats: Formats, w: World, w': World, path: Path, given: string, run: seq<Effect>)
    requires InOrder(w) && path != [] && IsSeeding(formats, w, path, given, run) && w' == Replay(formats, w, run)
    requires run == [] <==> Refused(formats, w, path) || (given != "" && given in w.db.posts)
    requires run != [] ==> run[0].k == POST_STAGES
    ensures FileSeeded(formats, w, w', path, given)
  {
    if run == [] {
      CalmStepRefl(formats, w, path, given == "");
    } else {
      assert run == [run[0]];
      ReplayOne(formats, w, run[0]);
      CalmEffect(formats, w, run[0]);
    }
  }

  lemma RowsAfter(formats: Formats, w: World, e: Effect)
    requires Indexed(w.db) && Legal(formats, w, e) && e.PostEffect?
    ensures BlogsIndexed(After(formats, w, e).db) && After(formats, w, e).db.users == w.db.users
  {
    PostStageFields(formats, w, e);
    ApplyKeepsIndexed(w.db, InsertPost(e.job.params, e.publicId));
  }

  lemma CalmEffect(formats: Formats, w: World, e: Effect)
    requires InOrder(w) && Legal(formats, w, e) && e.PostEffect? && e.k == POST_STAGES
    ensures var w' := After(formats, w, e);
      && CalmStep(formats, w, w', e.path, e.loose)
      && e.publicId in w'.db.posts && (e.loose ==> e.path !in w'.files)
  {
    RowsAfter(formats, w, e);
    FullStage(formats, w, e.path, e.publicId, e.job, e.loose);
    FullStageIsCalm(formats, w, After(formats, w, e), e.path, e.publicId, e.job, e.loose);
  }

  /** The folder has this one post file. */
  ghost predicate HoldsOnly(w: World, folder: Path, only: string) {
    only in Glob(w.files, w.dirs, folder, ".md") && |Glob(w.files, w.dirs, folder, ".md")| == 1
  }

  lemma CalmFolder(formats: Formats, w: World, w': World, dir: string, name: string, only: string)
    requires IsPublicId(name) && HoldsOnly(w, [dir, name], only) && FileSeeded(formats, w, w', [dir, name, only], name)
    ensures CalmStep(formats, w, w', [dir, name], false)
    ensures FolderSettled(formats, w', [dir, name])
    ensures FolderSettled(formats, w, [dir, name]) ==> w' == w
  {
    var names := Glob(w.files, w.dirs, [dir, name], ".md");
    assert name != "";
    assert names == {only} by {
      assert |names - {only}| == 0;
    }
    assert [dir, name] + [only] == [dir, name, only];
  }

  lemma CalmLooseFile(formats: Formats, w0: World, w: World, w': World, dir: string, rest: seq<string>)
    requires rest != [] && EndsWith(rest[0], ".md") && LoosePass(formats, w0, w, dir, rest)
    requires FileSeeded(formats, w, w', [dir, rest[0]], "")
    ensures LoosePass(formats, w0, w', dir, rest[1..])
  {
    LoosePassStep(formats, w0, w, w', dir, rest);
  }

  /** A post folder that has no row yet is not one the generator can name. */
  lemma GivenIsNotDrawn(w: World, ids: nat -> string, path: Path, given: string)
    requires TreeOk(w) && ClearOf(w, ids) && path in w.files
    requires given != "" ==> |path| == 3 && path[1] == given
    ensures given != "" ==> forall n :: ids(n) == given ==> given in w.db.posts
  {
    if given != "" {
      assert Parent(path) in w.dirs && Parent(path)[1] == given;
    }
  }

  lemma PostIsReady(formats: Formats, w: World, ids: nat -> string, path: Path, id: string, job: PostJob, given: string)
    requires InOrder(w) && ClearOf(w, ids) && IsMd(path) && Plan(formats, w, path) == Some(job)
    requires PostAllowed(w.db, job.params, id)
    requires if given == "" then |path| == 2 && exists n :: id == ids(n) else |path| == 3 && path[1] == id
    ensures PostReady(formats, w, path, id, job, given == "")
    ensures PostStage(w, path, id, job, given == "", 1) == Inserted(w, w.files[path].inode, job.params, id)
  {
    var folder := [path[0], id];
    if folder in w.dirs {
      assert folder[1] == id;
    }
  }

  class Seeder {
    const disk: Disk
    const store: Store
    const bucket: Bucket
    const formats: Formats
    const outcomes: nat -> Outcome
    const ids: nat -> string
    var tick: nat
    var drawn: nat
    // no step of this run has failed, and no identifier it drew stood in the way of a row; nothing reads it
    ghost var smooth: bool

    ghost function State(): World
      reads disk, store, bucket
    {
      Snapshot(disk, store, bucket)
    }

    ghost function Now(): Draws
      reads this, store
    {
      Draws(store.posts.Keys, drawn, smooth)
    }

    constructor (
        disk: Disk, store: Store, bucket: Bucket, formats: Formats, outcomes: nat -> Outcome, ids: nat -> string)
      ensures this.disk == disk && this.store == store && this.bucket == bucket && this.formats == formats
      ensures this.outcomes == outcomes && this.ids == ids && tick == 0 && drawn == 0 && smooth
    {
      this.disk, this.store, this.bucket, this.formats := disk, store, bucket, formats;
      this.outcomes, this.ids, this.tick, this.drawn := outcomes, ids, 0, 0;
      this.smooth := true;
    }

    ghost predicate Ready()
      reads disk, store, bucket
    {
      && InOrder(State())
      && ClearOf(State(), ids)
      && (forall n :: IsPublicId(ids(n)))
    }

    ghost predicate AllDone() {
      forall n :: outcomes(n) == Done
    }

    /** Only a failed step of this call can have made the run less than smooth. */
    twostate predicate NoWorse()
      reads this
    {
      (smooth ==> old(smooth)) && (old(smooth) && AllDone() ==> smooth)
    }

    lemma StaysReady(w: World, run: seq<Effect>)
      requires InOrder(w) && ClearOf(w, ids)
      ensures var w' := Replay(formats, w, run);
        InOrder(w') && ClearOf(w', ids) && w.db.posts.Keys <= w'.db.posts.Keys
    {
      RunInOrder(formats, w, run);
      ClearStays(w, Replay(formats, w, run), ids);
    }

    method Step() returns (o: Outcome)
      modifies `tick, `smooth
      ensures smooth == (old(smooth) && o == Done)
      ensures AllDone() ==> o == Done
    {
      o := outcomes(tick);
      tick := tick + 1;
      smooth := smooth && o == Done;
    }

    // ---- single effects ----

    method ReadFile(path: Path) returns (text: Option<string>)
      modifies `tick, `smooth
      ensures NoWorse()
      ensures text.Some? ==> path in disk.files && text.value == disk.files[path].text
      ensures smooth && path in disk.files ==> text.Some?
    {
      var o := Step();
      if o == Done && path in disk.files {
        return Some(disk.files[path].text);
      }
      return None;
    }

    method MkdirAll(p: Path) returns (ok: bool, ghost made: bool)
      requires p != []
      modifies `tick, `smooth, disk`dirs
      ensures NoWorse() && (smooth ==> ok)
      ensures ok ==> made
      ensures State() == if made then MakeDir(old(State()), p) else old(State())
    {
      var o := Step();
      made := o != NotDone;
      if o != NotDone {
        disk.dirs := disk.dirs + {p[..1], p};
      }
      ok := o == Done;
    }

    method Rename(p: Path, q: Path) returns (ok: bool, ghost moved: bool)
      requires p in disk.files
      modifies `tick, `smooth, disk`files
      ensures NoWorse() && (smooth ==> ok)
      ensures ok ==> moved
      ensures State() == if moved then Move(old(State()), p, q) else old(State())
    {
      var o := Step();
      moved := o != NotDone;
      if o != NotDone {
        disk.files := (disk.files - {p})[q := disk.files[p]];
      }
      ok := o == Done;
    }

    method Save(key: string, body: string) returns (ok: bool, ghost saved: bool)
      modifies `tick, `smooth, bucket
      ensures NoWorse() && (smooth ==> ok)
      ensures ok ==> saved
      ensures State() == if saved then Uploaded(old(State()), key, body) else old(State())
    {
      var o := Step();
      saved := o != NotDone;
      if o != NotDone {
        bucket.objects := bucket.objects[key := body];
      }
      ok := o == Done;
    }

    /** GeneratePublicID, which fails when the random source does. */
    method DrawId() returns (id: Result<string>)
      modifies `tick, `smooth, `drawn
      ensures NoWorse() && (smooth ==> id.Ok?)
      ensures drawn == old(drawn) + (if id.Ok? then 1 else 0)
      ensures id.Ok? ==> id.value == ids(old(drawn))
    {
      var o := Step();
      if o != Done {
        return Err;
      }
      drawn := drawn + 1;
      return Ok(ids(drawn - 1));
    }

    /** CreatePost over an unreliable connection; the row remembers its file. */
    method InsertRow(params: CreatePostParams, given: string, path: Path)
      returns (row: Option<Post>, ghost publicId: string, ghost inserted: bool)
      requires path in disk.files && forall n :: IsPublicId(ids(n))
      requires given != "" ==> forall n :: ids(n) == given ==> given in store.posts
      modifies `tick, `smooth, `drawn, store
      ensures given != "" ==> publicId == given
      ensures given == "" && inserted ==> exists n :: publicId == ids(n)
      ensures inserted ==>
        && PostAllowed(old(State()).db, params, publicId)
        && State() == Inserted(old(State()), disk.files[path].inode, params, publicId)
      ensures !inserted ==> row.None? && State() == old(State())
      ensures row.Some? ==> inserted && row.value == NewPost(old(State()).db, params, publicId)
      ensures Tracked(ids, AllDone(), old(Now()), Now()) && drawn <= old(drawn) + (if given == "" then 1 else 0)
      ensures smooth ==>
        && (inserted ==> row.Some?)
        && (inserted <==> RowAllowed(old(State()).db, params) && (given != "" ==> given !in old(State()).db.posts))
      ensures old(smooth) && AllDone() && (given != "" || !RowAllowed(old(State()).db, params)) ==> smooth
    {
      var generated: Result<string> := Err;
      ghost var d := Now();
      if given == "" {
        generated := DrawId();
        if generated.Ok? && generated.value in store.posts && RowAllowed(State().db, params) {
          smooth := false;
        }
      }
      publicId := if generated.Ok? then generated.value else given;
      row, inserted := PutRow(params, given, generated, path);
      if given == "" && generated.Ok? {
        assert DrawnBetween(ids, publicId, d.drawn, drawn);
      }
    }

    /** The statement itself, made or not, with an answer or without. */
    method PutRow(params: CreatePostParams, given: string, generated: Result<string>, path: Path)
      returns (row: Option<Post>, ghost inserted: bool)
      requires path in disk.files && (generated.Ok? ==> generated.value != "")
      modifies `tick, `smooth, store
      ensures NoWorse()
      ensures var publicId := if given != "" then given else if generated.Ok? then generated.value else "";
        && (inserted ==>
              && PostAllowed(old(State()).db, params, publicId)
              && State() == Inserted(old(State()), disk.files[path].inode, params, publicId)
              && store.posts.Keys == old(store.posts).Keys + {publicId})
        && (row.Some? ==> inserted && row.value == NewPost(old(State()).db, params, publicId))
        && (smooth ==> (inserted ==> row.Some?) && (inserted <==> PostAllowed(old(State()).db, params, publicId)))
      ensures !inserted ==> row.None? && State() == old(State())
    {
      inserted, row := false, None;
      var o := Step();
      if o == NotDone {
        return;
      }
      var r := store.CreatePost(params, given, generated);
      if r.Ok? {
        store.origin := store.origin[(if given != "" then given else generated.value) := disk.files[path].inode];
        inserted := true;
        if o == Done {
          row := Some(r.value);
        }
      }
    }

    // ---- posts ----

    /** The first half of seedPost: read the file and work out the row it asks for. */
    method PreparePost(blogSlug: string, path: Path) returns (job: Option<PostJob>, skipped: bool)
      requires path != [] && path[0] == blogSlug && BlogsIndexed(State().db)
      modifies `tick, `smooth
      ensures job.Some? ==> Plan(formats, State(), path) == job
      ensures NoWorse() && (smooth ==> job == Plan(formats, State(), path))
    {
      job, skipped := None, false;
      var text := ReadFile(path);
      if text.None? {
        return;
      }
      var parsed := ParsePost(formats, text.value);
      if parsed.None? {
        return;
      }
      var fm, body := parsed.value.0, parsed.value.1;
      var o := Step();
      var found := store.GetBlogBySlug(blogSlug);
      if o != Done {
        return;
      }
      if !found.Found? {
        // a missing blog is skipped with a warning
        skipped := found.NotFound?;
        return;
      }
      var blog := found.row;
      var publishedAt: Option<int> := None;
      if fm.publishedAt.Some? {
        publishedAt := ParseDate(formats, fm.publishedAt.value);
        if publishedAt.None? {
          return;
        }
      }
      var params := CreatePostParams(
        blog.id, blog.ownerId, Some(PostSlug(fm)), fm.title,
        if fm.description != "" then Some(fm.description) else None,
        false, None, fm.requiresAuth, fm.isListed, fm.allowComments, publishedAt);
      job := Some(PostJob(params, body));
    }

    method SeedPost(blogSlug: string, path: Path, given: string) returns (ok: bool, ghost run: seq<Effect>)
      requires Ready()
      requires IsMd(path) && path[0] == blogSlug
      requires if given == "" then |path| == 2 else |path| == 3 && path[1] == given && IsPublicId(given)
      modifies `tick, `smooth, `drawn, disk, store, bucket
      // whatever fails: nothing, or the first stages of seeding this file
      ensures State() == Replay(formats, old(State()), run) && PostsOnly(run)
      ensures IsSeeding(formats, old(State()), path, given, run)
      // the row it inserts says what the file's front matter does
      ensures run != [] ==>
        path in old(disk.files) && PostFollows(formats, old(State()), State(), path, run[0].publicId)
      ensures Tracked(ids, AllDone(), old(Now()), Now())
      ensures drawn <= old(drawn) + (if given == "" && path in old(disk.files) then 1 else 0)
      // smoothly it is all or nothing, and nothing only for a file that is refused or has its row
      ensures smooth ==>
        && (run == [] <==> Refused(formats, old(State()), path) || (given != "" && given in old(State()).db.posts))
        && (run != [] ==> run[0].k == POST_STAGES)
      ensures old(smooth) && AllDone() && (given != "" || Refused(formats, old(State()), path)) ==> smooth
    {
      run := [];
      ghost var w, d := State(), Now();
      var prepared, skipped := PreparePost(blogSlug, path);
      ok := skipped;
      if prepared.Some? {
        ghost var d1 := Now();
        ok, run := CommitPost(path, prepared.value, given);
        TrackedTrans(ids, AllDone(), d, d1, Now());
        SeedingFollows(formats, w, State(), path, given, run);
      }
    }

    /** SeedPost as the passes use it: what a smooth call does to the folder, and that a refused file stays. */
    method SeedFile(blogSlug: string, path: Path, given: string) returns (ghost run: seq<Effect>)
      requires Ready()
      requires IsMd(path) && path[0] == blogSlug
      requires if given == "" then |path| == 2 else |path| == 3 && path[1] == given && IsPublicId(given)
      modifies `tick, `smooth, `drawn, disk, store, bucket
      ensures State() == Replay(formats, old(State()), run) && PostsOnly(run)
      ensures Tracked(ids, AllDone(), old(Now()), Now())
      ensures drawn <= old(drawn) + (if given == "" && path in old(disk.files) then 1 else 0)
      ensures smooth ==> FileSeeded(formats, old(State()), State(), path, given)
      ensures old(smooth) && AllDone() && (given != "" || Refused(formats, old(State()), path)) ==> smooth
    {
      ghost var w := State();
      var ok;
      ok, run := SeedPost(blogSlug, path, given);
      if smooth {
        CalmSeed(formats, w, State(), path, given, run);
      }
    }

    /** The second half of seedPost: insert the row and carry out what follows. */
    method CommitPost(path: Path, job: PostJob, given: string) returns (ok: bool, ghost run: seq<Effect>)
      requires Ready() && IsMd(path) && Plan(formats, State(), path) == Some(job)
      requires if given == "" then |path| == 2 else |path| == 3 && path[1] == given && IsPublicId(given)
      modifies `tick, `smooth, `drawn, disk, store, bucket
      ensures State() == Replay(formats, old(State()), run) && PostsOnly(run)
      ensures IsSeeding(formats, old(State()), path, given, run)
      ensures Tracked(ids, AllDone(), old(Now()), Now()) && drawn <= old(drawn) + (if given == "" then 1 else 0)
      ensures smooth ==>
        && (run == [] <==> !RowAllowed(old(State()).db, job.params) || (given != "" && given in old(State()).db.posts))
        && (run != [] ==> run[0].k == POST_STAGES)
      ensures old(smooth) && AllDone() && (given != "" || !RowAllowed(old(State()).db, job.params)) ==> smooth
    {
      run, ok := [], false;
      ghost var w, d := State(), Now();
      assert path in w.files;
      GivenIsNotDrawn(w, ids, path, given);
      var row, publicId, inserted := InsertRow(job.params, given, path);
      ghost var k := 1;
      if inserted {
        PostIsReady(formats, w, ids, path, publicId, job, given);
      }
      if row.Some? {
        ghost var d1 := Now();
        ok, k := FinishPost(path, row.value, job.body, given == "", w, job);
        TrackedTrans(ids, AllDone(), d, d1, Now());
      }
      if inserted {
        run := [PostEffect(path, publicId, job, given == "", k)];
        OneSeeding(formats, w, State(), path, publicId, job, given, k);
      }
    }

    /** The rest of seedPost, once the row is in. */
    method FinishPost(path: Path, row: Post, body: string, loose: bool, ghost w: World, ghost job: PostJob)
      returns (ok: bool, ghost k: nat)
      requires PostReady(formats, w, path, row.publicId, job, loose)
      requires PostAllowed(w.db, job.params, row.publicId) && body == job.body
      requires row == NewPost(w.db, job.params, row.publicId)
      requires State() == PostStage(w, path, row.publicId, job, loose, 1)
      modifies `tick, `smooth, disk, bucket
      ensures 1 <= k <= POST_STAGES && State() == PostStage(w, path, row.publicId, job, loose, k)
      ensures NoWorse() && (smooth ==> ok && k == POST_STAGES)
    {
      k, ok := 1, false;
      if loose {
        var postDir := [path[0], row.publicId];
        var made, didMake := MkdirAll(postDir);
        k := if didMake then 2 else 1;
        if !made {
          return;
        }
        var moved, didMove := Rename(path, postDir + [path[|path| - 1]]);
        k := if didMove then 3 else 2;
        if !moved {
          return;
        }
      }
      var saved, didSave := Save(row.s3Key, body);
      k := if didSave then 4 else 3;
      ok := saved;
    }

    // ---- the passes over a blog folder ----

    /** The glob reads a directory that cannot be listed as one without matches. */
    method SeedLoosePosts(blogSlug: string) returns (ghost run: seq<Effect>)
      requires Ready()
      modifies `tick, `smooth, `drawn, disk, store, bucket
      ensures State() == Replay(formats, old(State()), run) && PostsOnly(run)
      ensures Tracked(ids, AllDone(), old(Now()), Now())
      ensures drawn <= old(drawn) + |LooseIn(old(disk.files), {blogSlug})|
      ensures smooth ==>
        && Progress(formats, old(State()), State()) && OutsideSame(old(State()), State(), blogSlug)
        && LooseSettled(formats, State(), blogSlug)
        && (LooseSettled(formats, old(State()), blogSlug) ==> State() == old(State()))
      ensures old(smooth) && AllDone() && LooseSettled(formats, old(State()), blogSlug) ==> smooth
    {
      ghost var w0, d0 := State(), Now();
      var looseFiles := [];
      var o := Step();
      if o == Done {
        looseFiles := Arrange(Glob(disk.files, disk.dirs, [blogSlug], ".md"));
        LooseRestStart(formats, w0, blogSlug, looseFiles);
      }
      ProgressRefl(formats, w0);
      assert ArePostNames(looseFiles);
      ghost var d := Now();
      run := SeedLooseFiles(blogSlug, looseFiles);
      TrackedTrans(ids, AllDone(), d0, d, Now());
      LoosePassEnd(formats, w0, State(), blogSlug);
    }

    /** The loop over the loose files of a folder. */
    method SeedLooseFiles(blogSlug: string, listed: seq<string>) returns (ghost run: seq<Effect>)
      requires Ready() && ArePostNames(listed)
      modifies `tick, `smooth, `drawn, disk, store, bucket
      ensures State() == Replay(formats, old(State()), run) && PostsOnly(run)
      ensures Tracked(ids, AllDone(), old(Now()), Now())
      ensures drawn <= old(drawn) + |LooseIn(old(disk.files), {blogSlug})|
      ensures smooth && LoosePass(formats, old(State()), old(State()), blogSlug, listed)
        ==> LoosePass(formats, old(State()), State(), blogSlug, [])
      ensures old(smooth) && AllDone() && LoosePass(formats, old(State()), old(State()), blogSlug, listed)
          && LooseSettled(formats, old(State()), blogSlug)
        ==> smooth
    {
      ghost var w0, d0 := State(), Now();
      ghost var tracked := LoosePass(formats, w0, w0, blogSlug, listed);
      var looseFiles := listed;
      run := [];
      SubsetSize(LooseNamed(w0.files, blogSlug, listed), LooseIn(w0.files, {blogSlug}));
      while looseFiles != []
        invariant State() == Replay(formats, w0, run) && PostsOnly(run)
        invariant ArePostNames(looseFiles)
        invariant Tracked(ids, AllDone(), d0, Now())
        invariant drawn + |LooseNamed(w0.files, blogSlug, looseFiles)| <= d0.drawn + |LooseIn(w0.files, {blogSlug})|
        invariant smooth && tracked ==> LoosePass(formats, w0, State(), blogSlug, looseFiles)
        invariant d0.smooth && AllDone() && tracked && LooseSettled(formats, w0, blogSlug) ==> smooth
        decreases |looseFiles|
      {
        ghost var w, d := State(), Now();
        StaysReady(w0, run);
        VisitNext(formats, w0, w, run, blogSlug, looseFiles);
        ghost var step := SeedLooseFile(blogSlug, looseFiles, w0);
        TrackedTrans(ids, AllDone(), d0, d, Now());
        ReplayMore(formats, w0, run, step, State());
        run := run + step;
        looseFiles := looseFiles[1..];
      }
    }

    /** One turn of that loop. */
    method SeedLooseFile(blogSlug: string, looseFiles: seq<string>, ghost w0: World) returns (ghost run: seq<Effect>)
      requires Ready() && looseFiles != [] && EndsWith(looseFiles[0], ".md")
      modifies `tick, `smooth, `drawn, disk, store, bucket
      ensures State() == Replay(formats, old(State()), run) && PostsOnly(run)
      ensures Tracked(ids, AllDone(), old(Now()), Now())
      ensures drawn <= old(drawn) + (if [blogSlug, looseFiles[0]] in old(disk.files) then 1 else 0)
      ensures smooth && LoosePass(formats, w0, old(State()), blogSlug, looseFiles)
        ==> LoosePass(formats, w0, State(), blogSlug, looseFiles[1..])
      ensures old(smooth) && AllDone() && Refused(formats, old(State()), [blogSlug, looseFiles[0]]) ==> smooth
    {
      ghost var w := State();
      var path := [blogSlug, looseFiles[0]];
      // the empty identifier asks for a new one
      run := SeedFile(blogSlug, path, "");
      if smooth && LoosePass(formats, w0, w, blogSlug, looseFiles) {
        CalmLooseFile(formats, w0, w, State(), blogSlug, looseFiles);
      }
    }

    method SeedStructuredPosts(blogSlug: string, existing: set<string>) returns (ok: bool, ghost run: seq<Effect>)
      requires Ready()
      requires existing <= store.posts.Keys
      modifies `tick, `smooth, `drawn, disk, store, bucket
      ensures State() == Replay(formats, old(State()), run) && PostsOnly(run)
      ensures Tracked(ids, AllDone(), old(Now()), Now()) && drawn == old(drawn)
      ensures smooth ==>
        && ok
        && Progress(formats, old(State()), State()) && OutsideSame(old(State()), State(), blogSlug)
        && (LooseSettled(formats, old(State()), blogSlug) ==> DirSettled(formats, State(), blogSlug))
        && (StructuredSettled(formats, old(State()), blogSlug) ==> State() == old(State()))
      ensures old(smooth) && AllDone() ==> smooth
    {
      ghost var w0, d0 := State(), Now();
      run := [];
      var o := Step();
      if o != Done {
        return false, run;
      }
      var postDirs := Arrange(SubDirs(disk.dirs, [blogSlug]));
      ProgressRefl(formats, w0);
      FoldersRestStart(formats, w0, blogSlug, postDirs);
      forall name | name in postDirs ensures [blogSlug] + [name] in w0.dirs {
        InListing(w0, [blogSlug], name);
      }
      while postDirs != []
        invariant State() == Replay(formats, w0, run) && PostsOnly(run)
        invariant Tracked(ids, AllDone(), d0, Now()) && drawn == d0.drawn
        invariant smooth ==> FolderPass(formats, w0, State(), blogSlug, postDirs)
        invariant d0.smooth && AllDone() ==> smooth
        decreases |postDirs|
      {
        ghost var w, d := State(), Now();
        StaysReady(w0, run);
        ghost var step := SeedFolder(blogSlug, postDirs[0], existing);
        TrackedTrans(ids, AllDone(), d0, d, Now());
        ReplayMore(formats, w0, run, step, State());
        run := run + step;
        if smooth {
          FolderPassStep(formats, w0, w, State(), blogSlug, postDirs);
        }
        postDirs := postDirs[1..];
      }
      return true, run;
    }

    /** One turn of that loop. `existing` was read before the run inserted anything, so it may be out of date. */
    method SeedFolder(blogSlug: string, name: string, existing: set<string>) returns (ghost run: seq<Effect>)
      requires Ready()
      requires existing <= store.posts.Keys
      modifies `tick, `smooth, `drawn, disk, store, bucket
      ensures State() == Replay(formats, old(State()), run) && PostsOnly(run)
      ensures Tracked(ids, AllDone(), old(Now()), Now()) && drawn == old(drawn)
      ensures smooth ==>
        && CalmStep(formats, old(State()), State(), [blogSlug, name], false)
        && FolderSettled(formats, State(), [blogSlug, name])
        && (FolderSettled(formats, old(State()), [blogSlug, name]) ==> State() == old(State()))
      ensures old(smooth) && AllDone() ==> smooth
    {
      var folder := [blogSlug, name];
      run := [];
      CalmStepRefl(formats, State(), folder, false);
      // it must look like a post folder, and not be known already
      if !IsPublicId(name) || name in existing {
        return;
      }
      var o := Step();
      if o != Done {
        return;
      }
      var mdFiles := Arrange(Glob(disk.files, disk.dirs, folder, ".md"));
      OneName(Glob(disk.files, disk.dirs, folder, ".md"), mdFiles);
      // one post folder should only contain one post file
      if |mdFiles| != 1 {
        return;
      }
      assert mdFiles[0] in mdFiles;
      ghost var d := Now();
      run := SeedOnlyPost(blogSlug, name, mdFiles[0]);
    }

    method SeedOnlyPost(blogSlug: string, name: string, only: string) returns (ghost run: seq<Effect>)
      requires Ready() && IsPublicId(name) && EndsWith(only, ".md") && HoldsOnly(State(), [blogSlug, name], only)
      modifies `tick, `smooth, `drawn, disk, store, bucket
      ensures State() == Replay(formats, old(State()), run) && PostsOnly(run)
      ensures Tracked(ids, AllDone(), old(Now()), Now()) && drawn == old(drawn)
      ensures smooth ==>
        && CalmStep(formats, old(State()), State(), [blogSlug, name], false)
        && FolderSettled(formats, State(), [blogSlug, name])
        && (FolderSettled(formats, old(State()), [blogSlug, name]) ==> State() == old(State()))
      ensures old(smooth) && AllDone() ==> smooth
    {
      ghost var w := State();
      run := SeedFile(blogSlug, [blogSlug, name, only], name);
      if smooth {
        CalmFolder(formats, w, State(), blogSlug, name, only);
      }
    }

    method SeedPostsForBlog(blogSlug: string, existing: set<string>) returns (ok: bool, ghost run: seq<Effect>)
      requires Ready()
      requires existing <= store.posts.Keys
      modifies `tick, `smooth, `drawn, disk, store, bucket
      ensures State() == Replay(formats, old(State()), run) && PostsOnly(run)
      ensures Tracked(ids, AllDone(), old(Now()), Now())
      ensures drawn <= old(drawn) + |LooseIn(old(disk.files), {blogSlug})|
      ensures smooth ==>
        && ok
        && Progress(formats, old(State()), State()) && OutsideSame(old(State()), State(), blogSlug)
        && DirSettled(formats, State(), blogSlug)
        && (DirSettled(formats, old(State()), blogSlug) ==> State() == old(State()))
      ensures old(smooth) && AllDone() && LooseSettled(formats, old(State()), blogSlug) ==> smooth
    {
      ghost var w0, d0 := State(), Now();
      run := [];
      var o := Step();
      if o != Done {
        return false, run;
      }
      ghost var d1 := Now();
      run := SeedLoosePosts(blogSlug);
      TrackedTrans(ids, AllDone(), d0, d1, Now());
      ghost var w1, d2 := State(), Now();
      StaysReady(w0, run);
      ghost var rest;
      ok, rest := SeedStructuredPosts(blogSlug, existing);
      TrackedTrans(ids, AllDone(), d0, d2, Now());
      ReplayMore(formats, w0, run, rest, State());
      run := run + rest;
      if smooth {
        ProgressTrans(formats, w0, w1, State());
        OutsideTrans(w0, w1, State(), blogSlug);
      }
    }

    method SeedPosts() returns (ok: bool, ghost run: seq<Effect>)
      requires Ready()
      modifies `tick, `smooth, `drawn, disk, store, bucket
      ensures State() == Replay(formats, old(State()), run) && PostsOnly(run)
      ensures Tracked(ids, AllDone(), old(Now()), Now())
      ensures drawn <= old(drawn) + |LooseFiles(old(disk.files))|
      ensures smooth ==>
        && ok
        && Progress(formats, old(State()), State())
        && PostsSettled(formats, State())
        && (PostsSettled(formats, old(State())) ==> State() == old(State()))
      ensures old(smooth) && AllDone() && PostsSettled(formats, old(State())) ==> smooth
    {
      ghost var w0, d0 := State(), Now();
      run := [];
      var o := Step();
      if o != Done {
        return false, run;
      }
      var blogDirs := Arrange(SubDirs(disk.dirs, []));
      // the identifiers already known, read once for the whole run
      o := Step();
      if o != Done {
        return false, run;
      }
      var existing := store.GetAllPostPublicIds();
      BlogPassStart(formats, w0, blogDirs);
      ghost var d := Now();
      run := SeedBlogDirs(blogDirs, existing);
      TrackedTrans(ids, AllDone(), d0, d, Now());
      BlogPassEnd(formats, w0, State());
      return true, run;
    }

    /** The loop over the blog folders. */
    method SeedBlogDirs(listed: seq<string>, existing: set<string>) returns (ghost run: seq<Effect>)
      requires Ready() && existing <= store.posts.Keys
      requires forall i, j :: 0 <= i < j < |listed| ==> listed[i] != listed[j]
      modifies `tick, `smooth, `drawn, disk, store, bucket
      ensures State() == Replay(formats, old(State()), run) && PostsOnly(run)
      ensures Tracked(ids, AllDone(), old(Now()), Now())
      ensures drawn <= old(drawn) + |LooseFiles(old(disk.files))|
      ensures smooth && BlogPass(formats, old(State()), old(State()), listed)
        ==> BlogPass(formats, old(State()), State(), [])
      ensures old(smooth) && AllDone() && BlogPass(formats, old(State()), old(State()), listed)
          && PostsSettled(formats, old(State()))
        ==> smooth
    {
      ghost var w0, d0 := State(), Now();
      ghost var tracked := BlogPass(formats, w0, w0, listed);
      var blogDirs := listed;
      run := [];
      SubsetSize(LooseIn(w0.files, Names(listed)), LooseFiles(w0.files));
      while blogDirs != []
        invariant State() == Replay(formats, w0, run) && PostsOnly(run)
        invariant forall i, j :: 0 <= i < j < |blogDirs| ==> blogDirs[i] != blogDirs[j]
        invariant Tracked(ids, AllDone(), d0, Now())
        invariant drawn + |LooseIn(w0.files, Names(blogDirs))| <= d0.drawn + |LooseFiles(w0.files)|
        invariant smooth && tracked ==> BlogPass(formats, w0, State(), blogDirs)
        invariant d0.smooth && AllDone() && tracked && PostsSettled(formats, w0) ==> smooth
        decreases |blogDirs|
      {
        StaysReady(w0, run);
        FewerLoose(formats, w0, State(), run, blogDirs);
        DirWasSettled(formats, w0, State(), blogDirs);
        ghost var step := SeedNextBlog(blogDirs, existing, w0, d0);
        ReplayMore(formats, w0, run, step, State());
        run := run + step;
        blogDirs := blogDirs[1..];
      }
    }

    /** One turn of that loop. */
    method SeedNextBlog(blogDirs: seq<string>, existing: set<string>, ghost w0: World, ghost d0: Draws)
      returns (ghost run: seq<Effect>)
      requires Ready() && blogDirs != [] && existing <= store.posts.Keys && Tracked(ids, AllDone(), d0, Now())
      modifies `tick, `smooth, `drawn, disk, store, bucket
      ensures State() == Replay(formats, old(State()), run) && PostsOnly(run)
      ensures Tracked(ids, AllDone(), d0, Now())
      ensures drawn <= old(drawn) + |LooseIn(old(disk.files), {blogDirs[0]})|
      ensures smooth ==> old(smooth)
      ensures smooth && BlogPass(formats, w0, old(State()), blogDirs) ==> BlogPass(formats, w0, State(), blogDirs[1..])
      ensures old(smooth) && AllDone() && LooseSettled(formats, old(State()), blogDirs[0]) ==> smooth
    {
      ghost var w, d := State(), Now();
      var ok;
      ok, run := SeedPostsForBlog(blogDirs[0], existing);
      TrackedTrans(ids, AllDone(), d0, d, Now());
      if smooth && BlogPass(formats, w0, w, blogDirs) {
        PostRunGrows(formats, w, run);
        BlogPassStep(formats, w0, w, State(), blogDirs);
      }
    }

    // ---- blogs ----

    /** ParseBlogManifest and the owner lookup of seedBlog, then the slug check of GetBlogBySlug. */
    method PrepareBlog(path: Path) returns (job: Option<BlogJob>, found: Lookup<Blog>)
      requires BlogsIndexed(State().db)
      modifies `tick, `smooth
      ensures job.Some? ==>
        && BlogPlan(formats, State(), path) == job
        && found == match FindBlog(State().db, job.value.slug) case Some(b) => Found(b) case None => NotFound
      ensures NoWorse() && (smooth ==> job == BlogPlan(formats, State(), path))
    {
      job, found := None, NotFound;
      var text := ReadFile(path);
      if text.None? {
        return;
      }
      var parsed := ParseManifest(formats, text.value);
      if parsed.None? {
        return;
      }
      var manifest := parsed.value;
      var o := Step();
      if o != Done || manifest.owner !in store.users {
        return;
      }
      var slug := Slugify(manifest.title);
      o := Step();
      found := store.GetBlogBySlug(slug);
      if o != Done || found.Failed? {
        return;
      }
      job := Some(BlogJob(store.users[manifest.owner], slug, manifest));
    }

    /** The branch of seedBlog for a blog that exists. */
    method UpdateExisting(path: Path, job: BlogJob, existing: Blog) returns (ok: bool, ghost k: nat)
      requires BlogsIndexed(State().db) && path in disk.files && path != []
      requires FindBlog(State().db, job.slug) == Some(existing)
      modifies `tick, `smooth, disk, store
      ensures k <= BLOG_STAGES && State() == BlogStage(old(State()), path, job, k)
      ensures NoWorse() && (smooth ==> k == BLOG_STAGES && (ok <==> Accepts(old(State()).db, job)))
    {
      k := 0;
      var update := UpdateParams(job, existing.id);
      var o := Step();
      if o == NotDone {
        return false, 0;
      }
      ok := store.UpdateBlog(update);
      k := 1;
      if !ok {
        return false, BLOG_STAGES;
      }
      if o != Done {
        return false, 1;
      }
      if Parent(path) != [job.slug] {
        var made, didMake := MkdirAll([job.slug]);
        k := if didMake then 2 else 1;
        if !made {
          return false, k;
        }
        var moved, didMove := Rename(path, Home(job));
        return moved, if didMove then 3 else 2;
      }
      return true, BLOG_STAGES;
    }

    /** The branch of seedBlog for a new blog: the manifest moves before the row is there. */
    method CreateNew(path: Path, job: BlogJob) returns (ok: bool, ghost k: nat)
      requires BlogsIndexed(State().db) && path in disk.files && path != [] && FindBlog(State().db, job.slug).None?
      modifies `tick, `smooth, disk, store
      ensures k <= BLOG_STAGES && State() == BlogStage(old(State()), path, job, k)
      ensures NoWorse() && (smooth ==> k == BLOG_STAGES && (ok <==> Accepts(old(State()).db, job)))
    {
      var made, didMake := MkdirAll([job.slug]);
      k := if didMake then 1 else 0;
      if !made {
        return false, k;
      }
      var moved, didMove := Rename(path, Home(job));
      k := if didMove then 2 else 1;
      if !moved {
        return false, k;
      }
      var o := Step();
      if o == NotDone {
        return false, 2;
      }
      var r := store.CreateBlog(CreateParams(job));
      return r.Ok? && o == Done, 3;
    }

    method SeedBlog(path: Path) returns (ok: bool, ghost run: seq<Effect>)
      requires Ready() && IsManifestPath(path)
      modifies `tick, `smooth, disk, store
      // whatever fails: nothing, or the first stages of seeding this manifest
      ensures State() == Replay(formats, old(State()), run) && BlogsOnly(run)
      ensures IsBlogSeeding(formats, old(State()), path, run)
      // a row that is new or retitled says what the manifest does
      ensures if path in old(disk.files) then BlogsFollow(formats, old(State()), State(), path) else run == []
      ensures NoWorse()
      // smoothly it is every stage, and an error only where the rows do not accept the manifest
      ensures smooth ==>
        && run == WholeSeeding(formats, old(State()), path)
        && (ok <==> AcceptsAt(formats, old(State()), path))
        && (if ok then path in old(disk.files) && HasItsRow(formats, old(State()), State(), path)
            else store.Rows() == old(store.Rows()))
    {
      ghost var w := State();
      run, ok := [], false;
      var job, found := PrepareBlog(path);
      if job.None? {
        BlogSeedingFollows(formats, w, w, path, run);
        return;
      }
      ghost var k;
      if found.Found? {
        ok, k := UpdateExisting(path, job.value, found.row);
      } else {
        ok, k := CreateNew(path, job.value);
      }
      ghost var e := BlogEffect(path, job.value, k);
      run := [e];
      assert Legal(formats, w, e);
      ReplayOne(formats, w, e);
      BlogSeedingFollows(formats, w, State(), path, run);
    }

    /** SeedBlog as the passes use it: what a smooth call does to the rows and the folders. */
    method SeedManifest(path: Path) returns (ok: bool, ghost run: seq<Effect>)
      requires Ready() && IsManifestPath(path)
      modifies `tick, `smooth, disk, store
      ensures State() == Replay(formats, old(State()), run) && BlogsOnly(run)
      ensures NoWorse()
      ensures smooth ==> ManifestSeeded(formats, old(State()), State(), path)
      ensures smooth ==> (ok <==> AcceptsAt(formats, old(State()), path))
    {
      ghost var w := State();
      ok, run := SeedBlog(path);
      if smooth {
        CalmBlogSeed(formats, w, State(), path);
      }
    }

    /** One loose manifest; its slug is recorded when seedBlog reports no error. */
    method SeedLooseManifest(name: string, before: set<string>) returns (done: set<string>, ghost run: seq<Effect>)
      requires Ready() && IsManifestName(name)
      modifies `tick, `smooth, disk, store
      ensures State() == Replay(formats, old(State()), run) && BlogsOnly(run)
      ensures NoWorse()
      ensures smooth ==>
        && ManifestSeeded(formats, old(State()), State(), [name])
        && done == (if AcceptsAt(formats, old(State()), [name])
                    then before + {BlogPlan(formats, old(State()), [name]).value.slug} else before)
    {
      ghost var w := State();
      done, run := before, [];
      NoManifest(formats, w, [name]);
      var text := ReadFile([name]);
      if text.None? {
        return;
      }
      var manifest := ParseManifest(formats, text.value);
      if manifest.None? {
        return;
      }
      // the folder name is derived from the same slug
      var slug := Slugify(manifest.value.title);
      var ok;
      ok, run := SeedManifest([name]);
      if ok {
        done := before + {slug};
      }
    }

    /** Round one: the loose manifests of one extension. */
    method SeedLooseManifests(ext: string, before: set<string>) returns (done: set<string>, ghost run: seq<Effect>)
      requires Ready() && (ext == ".yml" || ext == ".yaml")
      modifies `tick, `smooth, disk, store
      ensures State() == Replay(formats, old(State()), run) && BlogsOnly(run)
      ensures NoWorse()
      ensures smooth && OwnNamed(formats, old(State())) && AllRecorded(formats, old(State()), before)
        ==> LooseBlogPass(formats, old(State()), State(), ext, [], done)
      ensures smooth ==> LooseVisited(formats, old(State()), State(), ext, [], before, done)
    {
      ghost var w0 := State();
      ghost var tracked := OwnNamed(formats, w0) && AllRecorded(formats, w0, before);
      done, run := before, [];
      // here too a failed listing gives no names
      var glob := [];
      var o := Step();
      if o == Done {
        glob := Arrange(Glob(disk.files, disk.dirs, [], ext));
        LooseVisitedStart(formats, w0, ext, glob, done);
        if tracked {
          LooseBlogStart(formats, w0, ext, glob, done);
        }
      }
      while glob != []
        invariant State() == Replay(formats, w0, run) && BlogsOnly(run)
        invariant forall name :: name in glob ==> EndsWith(name, ext)
        invariant NoWorse()
        invariant smooth && tracked ==> LooseBlogPass(formats, w0, State(), ext, glob, done)
        invariant smooth ==> LooseVisited(formats, w0, State(), ext, glob, before, done)
        decreases |glob|
      {
        ghost var w, done0 := State(), done;
        assert glob[0] in glob;
        StaysReady(w0, run);
        ghost var step;
        done, step := SeedLooseManifest(glob[0], done);
        ReplayMore(formats, w0, run, step, State());
        run := run + step;
        if smooth {
          LooseVisit(formats, w0, w, ext, glob, before, done0);
          if tracked { LooseBlogStep(formats, w0, w, State(), ext, glob, done0); }
        }
        glob := glob[1..];
      }
    }

    /** Round one: every loose manifest, the .yml files first. */
    method SeedAllLooseManifests() returns (done: set<string>, ghost run: seq<Effect>)
      requires Ready()
      modifies `tick, `smooth, disk, store
      ensures State() == Replay(formats, old(State()), run) && BlogsOnly(run)
      ensures NoWorse()
      ensures smooth && OwnNamed(formats, old(State())) ==> RoundOne(formats, State(), done)
      ensures smooth ==> AllLooseVisited(formats, old(State()), State(), done)
    {
      ghost var w0 := State();
      var done1;
      done1, run := SeedLooseManifests(".yml", {});
      ghost var w1 := State();
      StaysReady(w0, run);
      ghost var rest;
      done, rest := SeedLooseManifests(".yaml", done1);
      ReplayMore(formats, w0, run, rest, State());
      run := run + rest;
      if smooth {
        BothExtensions(formats, w0, w1, State(), done1, done);
        if OwnNamed(formats, w0) { RoundOneDone(formats, w0, w1, State(), done1, done); }
      }
    }

    method SeedBlogs() returns (ok: bool, ghost run: seq<Effect>)
      requires Ready()
      modifies `tick, `smooth, disk, store
      ensures State() == Replay(formats, old(State()), run) && BlogsOnly(run)
      ensures NoWorse() && (smooth ==> ok)
      ensures smooth && OwnNamed(formats, old(State())) ==> BlogsSettled(formats, State())
      // nothing changes if and only if there was nothing to do
      ensures smooth ==> ManifestsVisited(formats, old(State()), State())
    {
      ghost var w0 := State();
      run := [];
      var o := Step();
      if o != Done {
        return false, run;
      }
      var done;
      done, run := SeedAllLooseManifests();
      StaysReady(w0, run);
      ghost var rest;
      ok, rest := SeedAllFolderManifests(w0, done);
      ReplayMore(formats, w0, run, rest, State());
      run := run + rest;
      if smooth {
        FoldersVisitedEnd(formats, w0, State(), done);
        if OwnNamed(formats, w0) { FolderBlogEnd(formats, State(), done); }
      }
    }

    /** Round two: the folders that hold a manifest already. */
    method SeedAllFolderManifests(ghost w0: World, done: set<string>) returns (ok: bool, ghost run: seq<Effect>)
      requires Ready()
      modifies `tick, `smooth, disk, store
      ensures State() == Replay(formats, old(State()), run) && BlogsOnly(run)
      ensures NoWorse() && (smooth ==> ok)
      ensures smooth && RoundOne(formats, old(State()), done) ==> FolderBlogPass(formats, State(), [], done)
      ensures smooth && AllLooseVisited(formats, w0, old(State()), done)
        ==> FoldersVisited(formats, w0, State(), [], done)
    {
      ghost var w := State();
      run := [];
      var o := Step();
      if o != Done {
        return false, run;
      }
      var entries := Arrange(SubDirs(disk.dirs, []));
      if RoundOne(formats, w, done) { FolderBlogStart(formats, w, done, entries); }
      if AllLooseVisited(formats, w0, w, done) { FoldersVisitedStart(formats, w0, w, done, entries); }
      run := SeedFolderManifests(w0, entries, done);
      return true, run;
    }

    /** The first manifest of every folder that round one has not recorded. */
    method SeedFolderManifests(ghost w0: World, listed: seq<string>, done: set<string>) returns (ghost run: seq<Effect>)
      requires Ready() && forall i, j :: 0 <= i < j < |listed| ==> listed[i] != listed[j]
      modifies `tick, `smooth, disk, store
      ensures State() == Replay(formats, old(State()), run) && BlogsOnly(run)
      ensures NoWorse()
      ensures smooth && FolderBlogPass(formats, old(State()), listed, done)
        ==> FolderBlogPass(formats, State(), [], done)
      ensures smooth && FoldersVisited(formats, w0, old(State()), listed, done)
        ==> FoldersVisited(formats, w0, State(), [], done)
    {
      ghost var start := State();
      ghost var named := FolderBlogPass(formats, start, listed, done);
      ghost var visited := FoldersVisited(formats, w0, start, listed, done);
      run := [];
      var entries := listed;
      while entries != []
        invariant State() == Replay(formats, start, run) && BlogsOnly(run)
        invariant NoWorse()
        invariant forall i, j :: 0 <= i < j < |entries| ==> entries[i] != entries[j]
        invariant smooth && named ==> FolderBlogPass(formats, State(), entries, done)
        invariant smooth && visited ==> FoldersVisited(formats, w0, State(), entries, done)
        decreases |entries|
      {
        StaysReady(start, run);
        ghost var step := SeedNextFolder(w0, entries, done);
        ReplayMore(formats, start, run, step, State());
        run := run + step;
        entries := entries[1..];
      }
    }

    /** One turn of that loop. */
    method SeedNextFolder(ghost w0: World, entries: seq<string>, done: set<string>) returns (ghost run: seq<Effect>)
      requires Ready() && entries != [] && entries[0] !in entries[1..]
      modifies `tick, `smooth, disk, store
      ensures State() == Replay(formats, old(State()), run) && BlogsOnly(run)
      ensures NoWorse()
      ensures smooth && FolderBlogPass(formats, old(State()), entries, done)
        ==> FolderBlogPass(formats, State(), entries[1..], done)
      ensures smooth && FoldersVisited(formats, w0, old(State()), entries, done)
        ==> FoldersVisited(formats, w0, State(), entries[1..], done)
    {
      ghost var w := State();
      run := [];
      if entries[0] in done {
        SkipFolder(formats, w0, w, entries, done);
        return;
      }
      var q := StatManifest(entries[0]);
      if q.None? {
        if smooth { SkipFolder(formats, w0, w, entries, done); }
        return;
      }
      run := SeedFolderManifest(entries[0], q.value);
      if smooth {
        VisitFolder(formats, w0, w, State(), entries, done, q.value);
      }
    }

    /** The first of blog.yml and blog.yaml that can be seen; a failed look goes on to the next name. */
    method StatManifest(dir: string) returns (q: Option<Path>)
      modifies `tick, `smooth
      ensures q.Some? ==> q == Some([dir, "blog.yml"]) || q == Some([dir, "blog.yaml"])
      ensures NoWorse() && (smooth ==> q == FirstManifest(disk.files, dir))
    {
      var o := Step();
      if o == Done && [dir, "blog.yml"] in disk.files {
        return Some([dir, "blog.yml"]);
      }
      o := Step();
      if o == Done && [dir, "blog.yaml"] in disk.files {
        return Some([dir, "blog.yaml"]);
      }
      return None;
    }

    method SeedFolderManifest(dir: string, q: Path) returns (ghost run: seq<Effect>)
      requires Ready() && (q == [dir, "blog.yml"] || q == [dir, "blog.yaml"])
      modifies `tick, `smooth, disk, store
      ensures State() == Replay(formats, old(State()), run) && BlogsOnly(run)
      ensures NoWorse()
      ensures smooth ==> ManifestSeeded(formats, old(State()), State(), q)
    {
      var ok;
      ok, run := SeedManifest(q);
    }

    // ---- a whole run ----

    /** Every row the run inserted has its file, its key and its object. */
    ghost predicate NewRowsShelved(w: World, w': World) {
      forall id :: id in w'.db.posts && id !in w.db.posts ==> Shelved(formats, w', id)
    }

    method Seed() returns (ok: bool, ghost run: seq<Effect>)
      requires Ready()
      modifies `tick, `smooth, `drawn, disk, store, bucket
      // whatever fails, and wherever the run stops
      ensures State() == Replay(formats, old(State()), run)
      ensures Ready() && Grown(formats, old(State()), State())
      ensures Inv(formats, old(State())) ==> Inv(formats, State()) && Kept(formats, old(State()), State())
      // a smooth run leaves nothing to do
      ensures smooth ==> ok && PostsSettled(formats, State()) && NewRowsShelved(old(State()), State())
      ensures smooth && OwnNamed(formats, old(State())) ==> Settled(formats, State())
      // and it changes nothing if and only if there was nothing to do
      ensures smooth ==> (State() == old(State()) <==> NothingToDo(formats, old(State())))
      // a run is smooth if no step fails, and as many draws as there are loose files are fresh or nothing is to do
      ensures old(smooth) && AllDone()
          && Fresh(ids, old(store.posts).Keys, old(drawn), old(drawn) + |LooseFiles(old(disk.files))|)
        ==> smooth
      ensures old(smooth) && AllDone() && NothingToDo(formats, old(State())) ==> smooth
      // and whatever is drawn, if no step fails the manifests are settled, and had no work if nothing changes
      ensures old(smooth) && AllDone() && OwnNamed(formats, old(State())) ==> BlogsSettled(formats, State())
      ensures old(smooth) && AllDone() && State() == old(State()) ==> ManifestsStill(formats, old(State()))
    {
      ghost var w1, d1, rest;
      ok, run, rest, w1, d1 := SeedBoth();
      SeedEnds(old(State()), w1, State(), run, rest, old(Now()), d1, Now());
      run := run + rest;
    }

    /** The blogs, and unless that fails the posts; `middle` and `draws` are how things stand in between. */
    method SeedBoth()
      returns (ok: bool, ghost run: seq<Effect>, ghost rest: seq<Effect>, ghost middle: World, ghost draws: Draws)
      requires Ready()
      modifies `tick, `smooth, `drawn, disk, store, bucket
      ensures middle == Replay(formats, old(State()), run) && State() == Replay(formats, middle, rest)
      ensures InOrder(middle) && PostsOnly(rest) && Tracked(ids, AllDone(), draws, Now())
      ensures draws.taken == old(store.posts).Keys && draws.drawn == old(drawn)
      ensures drawn <= draws.drawn + |LooseFiles(middle.files)|
      ensures old(smooth) && AllDone() ==> draws.smooth
      ensures draws.smooth ==>
        && ManifestsVisited(formats, old(State()), middle)
        && (OwnNamed(formats, old(State())) ==> BlogsSettled(formats, middle))
      ensures smooth ==>
        && ok && PostsSettled(formats, State()) && (PostsSettled(formats, middle) ==> State() == middle)
        && NewRowsShelved(old(State()), State())
      ensures draws.smooth && AllDone() && PostsSettled(formats, middle) ==> smooth
    {
      ghost var w0 := State();
      ok, run := SeedBlogs();
      BlogsHalf(w0, State(), run);
      rest, middle, draws := [], State(), Now();
      if ok {
        ok, rest := SeedPosts();
      }
    }

    /** What SeedBlogs and SeedPosts have done, put together. */
    lemma SeedEnds(
        w0: World, w1: World, w2: World, run: seq<Effect>, rest: seq<Effect>, d0: Draws, d1: Draws, d2: Draws)
      requires InOrder(w0) && ClearOf(w0, ids) && w1 == Replay(formats, w0, run) && w2 == Replay(formats, w1, rest)
      requires InOrder(w1) && PostsOnly(rest) && Tracked(ids, AllDone(), d1, d2)
      requires d1.taken == d0.taken && d1.drawn == d0.drawn && d2.drawn <= d1.drawn + |LooseFiles(w1.files)|
      requires d0.smooth && AllDone() ==> d1.smooth
      requires d1.smooth ==>
        ManifestsVisited(formats, w0, w1) && (OwnNamed(formats, w0) ==> BlogsSettled(formats, w1))
      requires d2.smooth ==> PostsSettled(formats, w2) && (PostsSettled(formats, w1) ==> w2 == w1)
      requires d1.smooth && AllDone() && PostsSettled(formats, w1) ==> d2.smooth
      ensures w2 == Replay(formats, w0, run + rest)
      ensures InOrder(w2) && ClearOf(w2, ids) && Grown(formats, w0, w2)
      ensures Inv(formats, w0) ==> Inv(formats, w2) && Kept(formats, w0, w2)
      ensures d2.smooth && OwnNamed(formats, w0) ==> Settled(formats, w2)
      ensures d2.smooth ==> (w2 == w0 <==> NothingToDo(formats, w0))
      ensures d0.smooth && AllDone() && Fresh(ids, d0.taken, d0.drawn, d0.drawn + |LooseFiles(w0.files)|) ==> d2.smooth
      ensures d0.smooth && AllDone() && NothingToDo(formats, w0) ==> d2.smooth
      ensures d0.smooth && AllDone() && OwnNamed(formats, w0) ==> BlogsSettled(formats, w2)
      ensures d0.smooth && AllDone() && w2 == w0 ==> ManifestsStill(formats, w0)
    {
      SeedIsSmooth(w0, w1, run, d0, d1, d2);
      BothHalves(w0, w1, w2, run, rest);
      if d1.smooth { HalvesShow(w0, w1, w2, rest); }
    }

    lemma BlogsHalf(w0: World, w1: World, run: seq<Effect>)
      requires InOrder(w0) && ClearOf(w0, ids) && w1 == Replay(formats, w0, run) && BlogsOnly(run)
      ensures InOrder(w1) && ClearOf(w1, ids) && w1.db.posts == w0.db.posts
    {
      StaysReady(w0, run);
      BlogRunKeepsPosts(formats, w0, run);
    }

    /** What is kept from one end of a run to the other. */
    lemma WholeRun(w0: World, w: World, run: seq<Effect>)
      requires InOrder(w0) && ClearOf(w0, ids) && w == Replay(formats, w0, run)
      ensures InOrder(w) && ClearOf(w, ids) && Grown(formats, w0, w)
      ensures Inv(formats, w0) ==> Inv(formats, w) && Kept(formats, w0, w)
    {
      StaysReady(w0, run);
      RunInOrder(formats, w0, run);
      if Inv(formats, w0) { RunKeeps(formats, w0, run); }
    }

    lemma BothHalves(w0: World, w1: World, w2: World, run: seq<Effect>, rest: seq<Effect>)
      requires InOrder(w0) && ClearOf(w0, ids)
      requires w1 == Replay(formats, w0, run) && w2 == Replay(formats, w1, rest) && PostsOnly(rest)
      ensures w2 == Replay(formats, w0, run + rest)
      ensures InOrder(w2) && ClearOf(w2, ids) && Grown(formats, w0, w2)
      ensures Inv(formats, w0) ==> Inv(formats, w2) && Kept(formats, w0, w2)
      ensures BlogsSettled(formats, w1) ==> BlogsSettled(formats, w2)
    {
      RunInOrder(formats, w0, run);
      PostRunGrows(formats, w1, rest);
      ReplayMore(formats, w0, run, rest, w2);
      WholeRun(w0, w2, run + rest);
      if BlogsSettled(formats, w1) { BlogsStaySettled(formats, w1, w2); }
    }

    /** What the first half has changed, the second does not change back. */
    lemma HalvesShow(w0: World, w1: World, w2: World, rest: seq<Effect>)
      requires InOrder(w1) && w2 == Replay(formats, w1, rest) && PostsOnly(rest) && ManifestsVisited(formats, w0, w1)
      ensures ManifestsStill(formats, w0) ==> w1 == w0
      ensures w2 == w0 ==> w1 == w0 && ManifestsStill(formats, w0)
      ensures PostsSettled(formats, w2) && (PostsSettled(formats, w1) ==> w2 == w1)
        ==> (w2 == w0 <==> NothingToDo(formats, w0))
    {
      PostRunGrows(formats, w1, rest);
      if w1 != w0 { ChangeSurvives(formats, w0, w1, w2); }
    }

    lemma SeedIsSmooth(w0: World, w1: World, run: seq<Effect>, d0: Draws, d1: Draws, d2: Draws)
      requires InOrder(w0) && w1 == Replay(formats, w0, run) && Tracked(ids, AllDone(), d1, d2)
      requires d1.taken == d0.taken && d1.drawn == d0.drawn && d2.drawn <= d1.drawn + |LooseFiles(w1.files)|
      requires d0.smooth && AllDone() ==> d1.smooth
      ensures d0.smooth && AllDone() && Fresh(ids, d0.taken, d0.drawn, d0.drawn + |LooseFiles(w0.files)|) ==> d2.smooth
    {
      RunInOrder(formats, w0, run);
      forall p | p in LooseFiles(w1.files) ensures p in LooseFiles(w0.files) {
        assert Holds(w0, p, w1.files[p]);
      }
      SubsetSize(LooseFiles(w1.files), LooseFiles(w0.files));
    }
  }

  ghost predicate Settled(formats: Formats, w: World) {
    BlogsSettled(formats, w) && PostsSettled(formats, w)
  }

  ghost predicate ArePostNames(names: seq<string>) {
    && (forall name :: name in names ==> EndsWith(name, ".md"))
    && (forall i, j :: 0 <= i < j < |names| ==> names[i] != names[j])
  }

  /** The loose post files of a folder that are still to be visited. */
  function LooseNamed(files: map<Path, File>, dir: string, names: seq<string>): set<Path> {
    set p | p in files && |p| == 2 && IsMd(p) && p[0] == dir && p[1] in names
  }

  lemma NextNames(rest: seq<string>)
    requires rest != [] && ArePostNames(rest)
    ensures EndsWith(rest[0], ".md") && ArePostNames(rest[1..]) && rest[0] !in rest[1..]
    ensures forall name :: name in rest[1..] ==> name in rest
  {
    assert rest[0] in rest;
  }

  lemma FewerNamed(files: map<Path, File>, dir: string, rest: seq<string>)
    requires rest != [] && rest[0] !in rest[1..] && EndsWith(rest[0], ".md")
    ensures |LooseNamed(files, dir, rest[1..])| + (if [dir, rest[0]] in files then 1 else 0)
      <= |LooseNamed(files, dir, rest)|
  {
    var path := [dir, rest[0]];
    var later, now := LooseNamed(files, dir, rest[1..]), LooseNamed(files, dir, rest);
    assert path !in later;
    SubsetSize(if path in files then later + {path} else later, now);
  }

  lemma VisitNext(formats: Formats, w0: World, w: World, run: seq<Effect>, dir: string, rest: seq<string>)
    requires rest != [] && ArePostNames(rest) && InOrder(w0) && w == Replay(formats, w0, run)
    ensures EndsWith(rest[0], ".md") && ArePostNames(rest[1..])
    ensures |LooseNamed(w0.files, dir, rest[1..])| + (if [dir, rest[0]] in w.files then 1 else 0)
      <= |LooseNamed(w0.files, dir, rest)|
    ensures LooseSettled(formats, w, dir) ==> Refused(formats, w, [dir, rest[0]])
  {
    RunInOrder(formats, w0, run);
    NextNames(rest);
    FewerNamed(w0.files, dir, rest);
    var path := [dir, rest[0]];
    assert IsMd(path);
    if path in w.files { assert Holds(w0, path, w.files[path]); }
  }

  lemma LoosePassEnd(formats: Formats, w0: World, w: World, dir: string)
    ensures LoosePass(formats, w0, w, dir, []) ==>
      && Progress(formats, w0, w) && OutsideSame(w0, w, dir)
      && LooseSettled(formats, w, dir)
      && (LooseSettled(formats, w0, dir) ==> w == w0)
  {
  }

  lemma DirWasSettled(formats: Formats, w0: World, w: World, blogDirs: seq<string>)
    requires blogDirs != []
    ensures BlogPass(formats, w0, w, blogDirs) && PostsSettled(formats, w0) ==> LooseSettled(formats, w, blogDirs[0])
  {
    assert blogDirs[0] in blogDirs;
  }

  lemma BlogPassEnd(formats: Formats, w0: World, w: World)
    ensures BlogPass(formats, w0, w, []) ==>
      Progress(formats, w0, w) && PostsSettled(formats, w) && (PostsSettled(formats, w0) ==> w == w0)
  {
  }

  function Names(q: seq<string>): set<string> {
    set x | x in q
  }

  lemma LooseWereThere(formats: Formats, w0: World, w: World, run: seq<Effect>)
    requires InOrder(w0) && w == Replay(formats, w0, run)
    ensures forall q :: q in w.files && IsMd(q) && |q| != 3 ==> Holds(w0, q, w.files[q])
  {
    RunInOrder(formats, w0, run);
  }

  lemma FewerLoose(formats: Formats, w0: World, w: World, run: seq<Effect>, rest: seq<string>)
    requires InOrder(w0) && w == Replay(formats, w0, run) && rest != [] && rest[0] !in rest[1..]
    ensures |LooseIn(w0.files, Names(rest[1..]))| + |LooseIn(w.files, {rest[0]})| <= |LooseIn(w0.files, Names(rest))|
  {
    LooseWereThere(formats, w0, w, run);
    var here, later := LooseIn(w.files, {rest[0]}), LooseIn(w0.files, Names(rest[1..]));
    forall p | p in here ensures p in LooseIn(w0.files, {rest[0]}) {
      assert Holds(w0, p, w.files[p]);
    }
    assert later !! here;
    assert Names(rest) == Names(rest[1..]) + {rest[0]};
    SubsetSize(later + here, LooseIn(w0.files, Names(rest)));
  }

  lemma OneSeeding(
      formats: Formats, w: World, w': World, path: Path, id: string, job: PostJob, given: string, k: nat)
    requires PostReady(formats, w, path, id, job, given == "") && IsPublicId(id) && (given != "" ==> id == given)
    requires IsLive(w.db, job.params.blogId) && 0 < k <= POST_STAGES
    requires w' == PostStage(w, path, id, job, given == "", k)
    ensures var run := [PostEffect(path, id, job, given == "", k)];
      w' == Replay(formats, w, run) && PostsOnly(run) && IsSeeding(formats, w, path, given, run)
  {
    ReplayOne(formats, w, PostEffect(path, id, job, given == "", k));
  }

  /** What there is to do for a file that is not there, or holds no manifest: nothing. */
  lemma NoManifest(formats: Formats, w: World, path: Path)
    requires path != []
    ensures BlogPlan(formats, w, path).Some? ==>
      && path in w.files && ParseManifest(formats, w.files[path].text).Some?
      && BlogPlan(formats, w, path).value.slug == Slugify(ParseManifest(formats, w.files[path].text).value.title)
    ensures BlogPlan(formats, w, path).None? ==> ManifestSeeded(formats, w, w, path) && !AcceptsAt(formats, w, path)
  {
  }

  lemma SeedingFollows(formats: Formats, w: World, w': World, path: Path, given: string, run: seq<Effect>)
    requires BlogsIndexed(w.db) && path != []
    requires IsSeeding(formats, w, path, given, run) && w' == Replay(formats, w, run)
    ensures run != [] ==> path in w.files && PostFollows(formats, w, w', path, run[0].publicId)
  {
    if run != [] {
      assert run == [run[0]];
      ReplayOne(formats, w, run[0]);
      EffectFollows(formats, w, run[0]);
    }
  }

  lemma BlogSeedingFollows(formats: Formats, w: World, w': World, path: Path, run: seq<Effect>)
    requires BlogsIndexed(w.db) && path != [] && IsBlogSeeding(formats, w, path, run) && w' == Replay(formats, w, run)
    ensures if path in w.files then BlogsFollow(formats, w, w', path) else run == []
    ensures run == WholeSeeding(formats, w, path) ==>
      (if AcceptsAt(formats, w, path) then path in w.files && HasItsRow(formats, w, w', path) else w'.db == w.db)
  {
    if run != [] {
      assert run == [run[0]];
      ReplayOne(formats, w, run[0]);
      StageFollows(formats, w, path, run[0].blog, run[0].k);
    }
    AcceptedHasRow(formats, w, path);
  }

  /** All stages of seeding a manifest, if it can be followed. */
  ghost function WholeSeeding(formats: Formats, w: World, path: Path): seq<Effect> {
    match BlogPlan(formats, w, path)
    case None => []
    case Some(job) => [BlogEffect(path, job, BLOG_STAGES)]
  }

  /** A whole seedBlog, and what it does to the rows and the folders. */
  ghost predicate ManifestSeeded(formats: Formats, w: World, w': World, path: Path)
    requires path != []
  {
    w' == Whole(formats, w, path) && CalmBlog(formats, w, w', path)
  }

  lemma SkipFolder(formats: Formats, w0: World, w: World, rest: seq<string>, done: set<string>)
    requires rest != [] && (rest[0] in done || FirstManifest(w.files, rest[0]).None?)
    ensures FolderBlogPass(formats, w, rest, done) ==> FolderBlogPass(formats, w, rest[1..], done)
    ensures FoldersVisited(formats, w0, w, rest, done) ==> FoldersVisited(formats, w0, w, rest[1..], done)
  {
    if FolderBlogPass(formats, w, rest, done) { FolderBlogSkip(formats, w, rest, done); }
    if FoldersVisited(formats, w0, w, rest, done) { FolderSkip(formats, w0, w, rest, done); }
  }

  lemma VisitFolder(
      formats: Formats, w0: World, w: World, w': World, rest: seq<string>, done: set<string>, q: Path)
    requires InOrder(w) && rest != [] && rest[0] !in rest[1..] && FirstManifest(w.files, rest[0]) == Some(q)
    requires ManifestSeeded(formats, w, w', q)
    ensures FolderBlogPass(formats, w, rest, done) ==> FolderBlogPass(formats, w', rest[1..], done)
    ensures FoldersVisited(formats, w0, w, rest, done) ==> FoldersVisited(formats, w0, w', rest[1..], done)
  {
    if FolderBlogPass(formats, w, rest, done) { FolderBlogStep(formats, w, w', rest, done, q); }
    if FoldersVisited(formats, w0, w, rest, done) { FolderVisit(formats, w0, w, rest, done, q); }
  }

  lemma CalmBlogSeed(formats: Formats, w: World, w': World, path: Path)
    requires BlogsIndexed(w.db) && IsManifestPath(path) && w' == Replay(formats, w, WholeSeeding(formats, w, path))
    ensures ManifestSeeded(formats, w, w', path)
  {
    var plan := BlogPlan(formats, w, path);
    if plan.Some? {
      ReplayOne(formats, w, BlogEffect(path, plan.value, BLOG_STAGES));
      FinalBlogStage(w, path, plan.value);
    }
  }
}
