/**
 What a run of the seeder does, whatever fails and wherever it stops: a sequence of effects, each the first stages
 of seeding one post or one manifest. What all such histories keep is proved here, over any number of runs.
 */
module SeedRun {
  import opened Prelude
  import opened Slug
  import opened PublicId
  import opened Database
  import opened SeedWorld
  import opened SeedSettled
  import opened BlogSettled

  datatype Effect =
    | PostEffect(path: Path, publicId: string, job: PostJob, loose: bool, k: nat)
    | BlogEffect(path: Path, blog: BlogJob, k: nat)

  /** Where the seeder looks for manifests: loose ones, and the two names in a folder. */
  predicate IsManifestPath(p: Path) {
    (|p| == 1 && IsManifestName(p[0])) || (|p| == 2 && (p[1] == "blog.yml" || p[1] == "blog.yaml"))
  }

  ghost predicate Legal(formats: Formats, w: World, e: Effect) {
    match e
    case PostEffect(path, publicId, job, loose, k) =>
      && PostReady(formats, w, path, publicId, job, loose)
      && IsLive(w.db, job.params.blogId)
      && IsPublicId(publicId)
      && 0 < k <= POST_STAGES
    case BlogEffect(path, job, k) =>
      IsManifestPath(path) && BlogPlan(formats, w, path) == Some(job) && k <= BLOG_STAGES
  }

  /** The world after an effect; one that is not legal has none. */
  ghost function After(formats: Formats, w: World, e: Effect): World {
    if !Legal(formats, w, e) then w
    else
      match e
      case PostEffect(path, publicId, job, loose, k) => PostStage(w, path, publicId, job, loose, k)
      case BlogEffect(path, job, k) => BlogStage(w, path, job, k)
  }

  ghost function Replay(formats: Formats, w: World, run: seq<Effect>): World {
    if run == [] then w else After(formats, Replay(formats, w, run[..|run| - 1]), run[|run| - 1])
  }

  lemma {:induction false} ReplayAppend(formats: Formats, w: World, a: seq<Effect>, b: seq<Effect>)
    ensures Replay(formats, w, a + b) == Replay(formats, Replay(formats, w, a), b)
  {
    if b == [] {
      assert a + b == a;
    } else {
      ReplayAppend(formats, w, a, b[..|b| - 1]);
      assert (a + b)[..|a + b| - 1] == a + b[..|b| - 1];
    }
  }

  lemma ReplayOne(formats: Formats, w: World, e: Effect)
    ensures Replay(formats, w, [e]) == After(formats, w, e)
  {
    assert [e][..0] == [];
  }

  // ---- what is kept ----

  ghost predicate FromFile(w: World, inode: nat) {
    exists p :: p in w.files && IsMd(p) && w.files[p].inode == inode
  }

  /** Every recorded row is one of a post file. */
  ghost predicate RowsFromFiles(w: World, w': World) {
    forall id :: id in w'.origin && id !in w.origin ==> FromFile(w, w'.origin[id])
  }

  ghost predicate HasRow(w: World, inode: nat) {
    exists id :: id in w.origin && w.origin[id] == inode
  }

  /** A post file with a row stays where it is, and others only ever move into post folders. */
  ghost predicate MovesOnce(w: World, w': World) {
    && (forall p :: p in w.files && IsMd(p) && HasRow(w, w.files[p].inode) ==> Holds(w', p, w.files[p]))
    && (forall q :: q in w'.files && IsMd(q) && |q| != 3 ==> Holds(w, q, w'.files[q]))
  }

  ghost predicate SameObject(w: World, w': World, key: string) {
    (key in w.bucket <==> key in w'.bucket) && (key in w.bucket ==> w'.bucket[key] == w.bucket[key])
  }

  /** The rows there are keep exactly the objects they have, or have not. */
  ghost predicate ObjectsKept(w: World, w': World) {
    forall id :: id in w.db.posts ==> SameObject(w, w', w.db.posts[id].s3Key)
  }

  /** What every history keeps. */
  ghost predicate Kept(formats: Formats, w: World, w': World) {
    && Evolves(w, w')
    && RowsFromFiles(w, w')
    && MovesOnce(w, w')
    && ObjectsKept(w, w')
    && (OwnNamed(formats, w) ==> OwnNamed(formats, w'))
  }

  lemma KeptRefl(formats: Formats, w: World)
    ensures Kept(formats, w, w)
  {
    EvolvesRefl(w);
  }

  lemma RowsFromFilesTrans(a: World, b: World, c: World)
    requires FilesKept(a, b) && RowsFromFiles(a, b) && RowsFromFiles(b, c)
    requires RowsKept(b, c)
    ensures RowsFromFiles(a, c)
  {
    forall id | id in c.origin && id !in a.origin ensures FromFile(a, c.origin[id]) {
      if id !in b.origin {
        var q :| q in b.files && IsMd(q) && b.files[q].inode == c.origin[id];
        assert CameFrom(a, b.files[q]);
      }
    }
  }

  lemma MovesOnceTrans(a: World, b: World, c: World)
    requires MovesOnce(a, b) && MovesOnce(b, c) && RowsKept(a, b)
    ensures MovesOnce(a, c)
  {
    forall p | p in a.files && IsMd(p) && HasRow(a, a.files[p].inode) ensures Holds(c, p, a.files[p]) {
      assert Holds(b, p, a.files[p]);
      var id :| id in a.origin && a.origin[id] == a.files[p].inode;
      assert id in b.origin && b.origin[id] == b.files[p].inode;
    }
    forall q | q in c.files && IsMd(q) && |q| != 3 ensures Holds(a, q, c.files[q]) {
      assert Holds(b, q, c.files[q]);
    }
  }

  lemma ObjectsKeptTrans(a: World, b: World, c: World)
    requires ObjectsKept(a, b) && ObjectsKept(b, c) && RowsKept(a, b)
    ensures ObjectsKept(a, c)
  {
    forall id | id in a.db.posts ensures SameObject(a, c, a.db.posts[id].s3Key) {
      assert SameObject(a, b, a.db.posts[id].s3Key) && SameObject(b, c, b.db.posts[id].s3Key);
    }
  }

  lemma KeptTrans(formats: Formats, a: World, b: World, c: World)
    requires Kept(formats, a, b) && Kept(formats, b, c)
    ensures Kept(formats, a, c)
  {
    EvolvesTrans(a, b, c);
    RowsFromFilesTrans(a, b, c);
    MovesOnceTrans(a, b, c);
    ObjectsKeptTrans(a, b, c);
  }

  // ---- the effect of a post ----

  /** The world after the first k stages, field by field. */
  ghost predicate IsPostStage(w: World, w': World, path: Path, publicId: string, job: PostJob, loose: bool, k: nat)
    requires path in w.files && path != [] && IsLive(w.db, job.params.blogId)
  {
    && w'.files == (if loose && k >= 3 then (w.files - {path})[HomeOf(path, publicId) := w.files[path]] else w.files)
    && w'.dirs == (if loose && k >= 2 then w.dirs + {[path[0]], [path[0], publicId]} else w.dirs)
    && w'.db == Apply(w.db, InsertPost(job.params, publicId))
    && w'.origin == w.origin[publicId := w.files[path].inode]
    && w'.bucket == (if k >= 4 then w.bucket[NewPost(w.db, job.params, publicId).s3Key := job.body] else w.bucket)
  }

  lemma PostStageFields(formats: Formats, w: World, e: Effect)
    requires Legal(formats, w, e) && e.PostEffect?
    ensures e.path in w.files && |e.path| == (if e.loose then 2 else 3)
    ensures IsPostStage(w, After(formats, w, e), e.path, e.publicId, e.job, e.loose, e.k)
  {
    var path, id := e.path, e.publicId;
    StageShape(w, path, id, e.job, e.loose, if e.k < POST_STAGES then e.k else 3);
    assert [path[0], id][..1] == [path[0]];
    if e.loose { assert HomeOf(path, id) == [path[0], id, path[1]]; }
  }

  /** A file that is moved had no row, and its new place was free. */
  lemma MovedFile(formats: Formats, w: World, e: Effect)
    requires Inv(formats, w) && Legal(formats, w, e) && e.PostEffect?
    ensures e.path in w.files && !HasRow(w, w.files[e.path].inode)
    ensures HomeOf(e.path, e.publicId) in w.files ==> HomeOf(e.path, e.publicId) == e.path
  {
    NoOtherRow(formats, w, e.path, e.job);
    var home := HomeOf(e.path, e.publicId);
    assert Parent(home) == [e.path[0], e.publicId];
    if !e.loose { assert home == e.path; }
  }

  lemma StageMovesOnce(w: World, w': World, path: Path, home: Path)
    requires path in w.files && !HasRow(w, w.files[path].inode) && |home| == 3 && (home in w.files ==> home == path)
    requires w'.files == w.files || w'.files == (w.files - {path})[home := w.files[path]]
    ensures MovesOnce(w, w')
  {
    forall p | p in w.files && IsMd(p) && HasRow(w, w.files[p].inode) ensures Holds(w', p, w.files[p]) {
      assert p != path;
    }
  }

  lemma PostMovesOnce(formats: Formats, w: World, e: Effect)
    requires Inv(formats, w) && Legal(formats, w, e) && e.PostEffect?
    ensures MovesOnce(w, After(formats, w, e))
  {
    PostStageFields(formats, w, e);
    MovedFile(formats, w, e);
    StageMovesOnce(w, After(formats, w, e), e.path, HomeOf(e.path, e.publicId));
  }

  lemma PostRowFromFile(formats: Formats, w: World, e: Effect)
    requires Legal(formats, w, e) && e.PostEffect?
    ensures RowsFromFiles(w, After(formats, w, e))
  {
    PostStageFields(formats, w, e);
    assert FromFile(w, w.files[e.path].inode);
  }

  lemma PostKeepsObjects(formats: Formats, w: World, e: Effect)
    requires Inv(formats, w) && Legal(formats, w, e) && e.PostEffect?
    ensures ObjectsKept(w, After(formats, w, e))
  {
    PostStageFields(formats, w, e);
    forall id | id in w.db.posts ensures SameObject(w, After(formats, w, e), w.db.posts[id].s3Key) {
      NewKeyIsNew(w.db, e.job.params, e.publicId, id);
    }
  }

  lemma StageIsOnlyPosts(w: World, w': World, path: Path, publicId: string, job: PostJob, loose: bool, k: nat)
    requires IsMd(path) && path in w.files && IsLive(w.db, job.params.blogId) && (loose ==> [path[0]] in w.dirs)
    requires IsPostStage(w, w', path, publicId, job, loose, k)
    ensures OnlyPosts(w, w')
  {
    forall p | !IsMd(p) ensures SameAt(w, w', p) {
      assert p != path && p != HomeOf(path, publicId);
    }
  }

  lemma PostIsOnlyPosts(formats: Formats, w: World, e: Effect)
    requires TreeOk(w) && Legal(formats, w, e) && e.PostEffect?
    ensures OnlyPosts(w, After(formats, w, e))
  {
    PostStageFields(formats, w, e);
    if e.loose { assert Parent(e.path) == [e.path[0]]; }
    StageIsOnlyPosts(w, After(formats, w, e), e.path, e.publicId, e.job, e.loose, e.k);
  }

  /** Seeding posts keeps the names of the blog folders. */
  lemma NamesByOnlyPosts(formats: Formats, w: World, w': World)
    requires OnlyPosts(w, w') && OwnNamed(formats, w)
    ensures OwnNamed(formats, w')
  {
    forall d | [d] in w'.dirs ensures OwnNamedDir(formats, w', d) {
      NotMd("blog.yml");
      NotMd("blog.yaml");
      assert SameAt(w, w', [d, "blog.yml"]) && SameAt(w, w', [d, "blog.yaml"]);
      assert OwnNamedDir(formats, w, d);
    }
  }

  lemma PostKeeps(formats: Formats, w: World, e: Effect)
    requires Inv(formats, w) && Legal(formats, w, e) && e.PostEffect?
    ensures Inv(formats, After(formats, w, e)) && Kept(formats, w, After(formats, w, e))
  {
    PostStageKeeps(formats, w, e.path, e.publicId, e.job, e.loose, e.k);
    PostMovesOnce(formats, w, e);
    PostRowFromFile(formats, w, e);
    PostKeepsObjects(formats, w, e);
    PostIsOnlyPosts(formats, w, e);
    if OwnNamed(formats, w) { NamesByOnlyPosts(formats, w, After(formats, w, e)); }
  }

  // ---- the effect of a manifest ----

  lemma ManifestIsNoPost(p: Path)
    requires IsManifestPath(p)
    ensures p != [] && !IsMd(p)
  {
    NotMd(p[|p| - 1]);
  }

  /** However far it gets, seeding a manifest leaves every folder named by its own first manifest. */
  lemma StageKeepsNames(formats: Formats, w: World, path: Path, job: BlogJob, k: nat)
    requires TreeOk(w) && IsManifestPath(path) && BlogPlan(formats, w, path) == Some(job) && OwnNamed(formats, w)
    ensures OwnNamed(formats, BlogStage(w, path, job, k))
  {
    var w' := BlogStage(w, path, job, k);
    BlogStageFields(w, path, job, k);
    forall d | [d] in w'.dirs ensures OwnNamedDir(formats, w', d) {
      if d == job.slug {
        NamedHome(formats, w, w', path, job, k);
      } else {
        assert [d] in w.dirs && OwnNamedDir(formats, w, d);
        OtherManifests(formats, w, w', path, job, k, d);
      }
    }
  }

  lemma NamedHome(formats: Formats, w: World, w': World, path: Path, job: BlogJob, k: nat)
    requires TreeOk(w) && BlogPlan(formats, w, path) == Some(job) && OwnNamed(formats, w)
    requires IsBlogStage(w, w', path, job, k)
    ensures OwnNamedDir(formats, w', job.slug)
  {
    if ManifestMoved(w, path, job, k) {
      assert FirstManifest(w'.files, job.slug) == Some(Home(job));
    } else if [job.slug] in w.dirs {
      assert OwnNamedDir(formats, w, job.slug);
    } else {
      assert Parent([job.slug, "blog.yml"]) == [job.slug] && Parent([job.slug, "blog.yaml"]) == [job.slug];
    }
  }

  lemma OtherManifests(formats: Formats, w: World, w': World, path: Path, job: BlogJob, k: nat, d: string)
    requires IsManifestPath(path) && BlogPlan(formats, w, path) == Some(job)
    requires IsBlogStage(w, w', path, job, k)
    requires d != job.slug && OwnNamedDir(formats, w, d)
    ensures OwnNamedDir(formats, w', d)
  {
    assert Home(job)[0] != d;
    var q := FirstManifest(w.files, d);
    if q.Some? && path != q.value {
      assert FirstManifest(w'.files, d) == q;
    }
  }

  lemma BlogMovesOnce(w: World, w': World, path: Path, job: BlogJob, k: nat)
    requires path in w.files && path != [] && !IsMd(path) && IsBlogStage(w, w', path, job, k)
    ensures MovesOnce(w, w')
  {
    HomeIsNoPost(job);
  }

  lemma SameRowsKept(w: World, w': World)
    requires w'.origin == w.origin && w'.bucket == w.bucket
    ensures RowsFromFiles(w, w') && ObjectsKept(w, w')
  {
  }

  lemma BlogKeepsRest(formats: Formats, w: World, e: Effect)
    requires TreeOk(w) && Legal(formats, w, e) && e.BlogEffect?
    ensures var w' := After(formats, w, e);
      MovesOnce(w, w') && RowsFromFiles(w, w') && ObjectsKept(w, w') && (OwnNamed(formats, w) ==> OwnNamed(formats, w'))
  {
    var w' := BlogStage(w, e.path, e.blog, e.k);
    ManifestIsNoPost(e.path);
    BlogStageFields(w, e.path, e.blog, e.k);
    BlogMovesOnce(w, w', e.path, e.blog, e.k);
    SameRowsKept(w, w');
    if OwnNamed(formats, w) { StageKeepsNames(formats, w, e.path, e.blog, e.k); }
  }

  lemma BlogKeeps(formats: Formats, w: World, e: Effect)
    requires Inv(formats, w) && Legal(formats, w, e) && e.BlogEffect?
    ensures Inv(formats, After(formats, w, e)) && Kept(formats, w, After(formats, w, e))
  {
    ManifestIsNoPost(e.path);
    BlogStageKeeps(formats, w, e.path, e.blog, e.k);
    BlogKeepsRest(formats, w, e);
  }

  // ---- whole histories ----

  lemma EffectKeeps(formats: Formats, w: World, e: Effect)
    requires Inv(formats, w)
    ensures Inv(formats, After(formats, w, e)) && Kept(formats, w, After(formats, w, e))
  {
    if !Legal(formats, w, e) {
      KeptRefl(formats, w);
    } else if e.PostEffect? {
      PostKeeps(formats, w, e);
    } else {
      BlogKeeps(formats, w, e);
    }
  }

  /** The invariant, and all that is kept, over every history of effects. */
  lemma {:induction false} RunKeeps(formats: Formats, w: World, run: seq<Effect>)
    requires Inv(formats, w)
    ensures Inv(formats, Replay(formats, w, run)) && Kept(formats, w, Replay(formats, w, run))
  {
    if run == [] {
      KeptRefl(formats, w);
    } else {
      var init, last := run[..|run| - 1], run[|run| - 1];
      RunKeeps(formats, w, init);
      EffectKeeps(formats, Replay(formats, w, init), last);
      KeptTrans(formats, w, Replay(formats, w, init), Replay(formats, w, run));
    }
  }

  // ---- what holds of every tree and every rows in order, whatever the rows were made from ----

  lemma BlogStageIndexed(w: World, path: Path, job: BlogJob, k: nat)
    requires Indexed(w.db) && path in w.files && path != []
    ensures Indexed(BlogStage(w, path, job, k).db)
  {
    ApplyKeepsIndexed(w.db, InsertBlog(CreateParams(job)));
    if FindBlog(w.db, job.slug).Some? {
      ApplyKeepsIndexed(w.db, RenameBlog(UpdateParams(job, FindBlog(w.db, job.slug).value.id)));
    }
  }

  lemma BlogStageTree(w: World, path: Path, job: BlogJob, k: nat)
    requires TreeOk(w) && path in w.files
    ensures TreeOk(BlogStage(w, path, job, k))
  {
    BlogStageFields(w, path, job, k);
    HomeIsNoPost(job);
  }

  lemma MoveToFreePlace(w: World, w': World, p: Path, home: Path)
    requires TreeOk(w) && p in w.files && home != [] && (home in w.files ==> home == p) && w.dirs <= w'.dirs
    requires Parent(home) in w'.dirs && w'.files == (w.files - {p})[home := w.files[p]]
    ensures TreeOk(w')
  {
  }

  lemma HomeIsFree(formats: Formats, w: World, e: Effect)
    requires TreeOk(w) && Legal(formats, w, e) && e.PostEffect?
    ensures var home := HomeOf(e.path, e.publicId);
      (home in w.files ==> home == e.path) && (!e.loose ==> home == e.path) && Parent(home) == [e.path[0], e.publicId]
  {
    var home := HomeOf(e.path, e.publicId);
    assert Parent(home) == [e.path[0], e.publicId];
    if !e.loose { assert home == e.path; }
  }

  lemma PostTree(formats: Formats, w: World, e: Effect)
    requires TreeOk(w) && Legal(formats, w, e) && e.PostEffect?
    ensures TreeOk(After(formats, w, e))
  {
    PostStageFields(formats, w, e);
    HomeIsFree(formats, w, e);
    if e.loose && e.k >= 3 {
      MoveToFreePlace(w, After(formats, w, e), e.path, HomeOf(e.path, e.publicId));
    }
  }

  /** Users, post rows and folders stay, and no post file comes to lie outside the post folders. */
  ghost predicate Grown(formats: Formats, w: World, w': World) {
    && w'.db.users == w.db.users
    && (forall id :: id in w.db.posts ==> id in w'.db.posts && w'.db.posts[id] == w.db.posts[id])
    && FoldersKept(w, w')
    && (forall q :: q in w'.files && IsMd(q) && |q| != 3 ==> Holds(w, q, w'.files[q]))
    && (OwnNamed(formats, w) ==> OwnNamed(formats, w'))
  }

  lemma PostInOrder(formats: Formats, w: World, e: Effect)
    requires InOrder(w) && Legal(formats, w, e) && e.PostEffect?
    ensures InOrder(After(formats, w, e)) && Grown(formats, w, After(formats, w, e))
  {
    var w' := After(formats, w, e);
    PostStageFields(formats, w, e);
    PostTree(formats, w, e);
    ApplyKeepsIndexed(w.db, InsertPost(e.job.params, e.publicId));
    PostIsOnlyPosts(formats, w, e);
    if OwnNamed(formats, w) { NamesByOnlyPosts(formats, w, w'); }
    StageGrows(w, w', e.path, e.publicId, e.job, e.loose, e.k);
  }

  lemma StageGrows(w: World, w': World, path: Path, publicId: string, job: PostJob, loose: bool, k: nat)
    requires path in w.files && path != [] && PostAllowed(w.db, job.params, publicId)
    requires IsPostStage(w, w', path, publicId, job, loose, k)
    ensures w'.db.users == w.db.users && FoldersKept(w, w')
    ensures forall id :: id in w.db.posts ==> id in w'.db.posts && w'.db.posts[id] == w.db.posts[id]
    ensures forall q :: q in w'.files && IsMd(q) && |q| != 3 ==> Holds(w, q, w'.files[q])
  {
  }

  lemma ManifestInOrder(formats: Formats, w: World, e: Effect)
    requires InOrder(w) && Legal(formats, w, e) && e.BlogEffect?
    ensures InOrder(After(formats, w, e)) && Grown(formats, w, After(formats, w, e))
  {
    var w' := After(formats, w, e);
    ManifestIsNoPost(e.path);
    BlogStageIndexed(w, e.path, e.blog, e.k);
    BlogStageTree(w, e.path, e.blog, e.k);
    BlogStageFields(w, e.path, e.blog, e.k);
    PostsUntouched(w, e.path, e.blog, e.k);
    ManifestGrows(w, w', e.path, e.blog, e.k);
    if OwnNamed(formats, w) { StageKeepsNames(formats, w, e.path, e.blog, e.k); }
  }

  lemma ManifestGrows(w: World, w': World, path: Path, job: BlogJob, k: nat)
    requires path in w.files && path != [] && IsBlogStage(w, w', path, job, k)
    ensures FoldersKept(w, w')
    ensures forall q :: q in w'.files && IsMd(q) && |q| != 3 ==> Holds(w, q, w'.files[q])
  {
    HomeIsNoPost(job);
  }

  lemma GrownTrans(formats: Formats, a: World, b: World, c: World)
    requires Grown(formats, a, b) && Grown(formats, b, c)
    ensures Grown(formats, a, c)
  {
    forall q | q in c.files && IsMd(q) && |q| != 3 ensures Holds(a, q, c.files[q]) {
      assert Holds(b, q, c.files[q]);
    }
  }

  lemma {:induction false} RunInOrder(formats: Formats, w: World, run: seq<Effect>)
    requires InOrder(w)
    ensures InOrder(Replay(formats, w, run)) && Grown(formats, w, Replay(formats, w, run))
  {
    if run != [] {
      var init, last := run[..|run| - 1], run[|run| - 1];
      var before := Replay(formats, w, init);
      RunInOrder(formats, w, init);
      if Legal(formats, before, last) {
        if last.PostEffect? { PostInOrder(formats, before, last); } else { ManifestInOrder(formats, before, last); }
      }
      GrownTrans(formats, w, before, Replay(formats, w, run));
    }
  }

  predicate PostsOnly(run: seq<Effect>) {
    forall e :: e in run ==> e.PostEffect?
  }

  predicate BlogsOnly(run: seq<Effect>) {
    forall e :: e in run ==> e.BlogEffect?
  }

  /** The posts half of a run leaves manifests, blog folders and blog rows alone, whatever fails. */
  lemma {:induction false} PostRunGrows(formats: Formats, w: World, run: seq<Effect>)
    requires InOrder(w) && PostsOnly(run)
    ensures OnlyPosts(w, Replay(formats, w, run)) && PostsGrow(w, Replay(formats, w, run))
  {
    RunInOrder(formats, w, run);
    if run != [] {
      var init, last := run[..|run| - 1], run[|run| - 1];
      PostRunGrows(formats, w, init);
      RunInOrder(formats, w, init);
      assert last in run;
      if Legal(formats, Replay(formats, w, init), last) {
        PostIsOnlyPosts(formats, Replay(formats, w, init), last);
        OnlyPostsTrans(w, Replay(formats, w, init), Replay(formats, w, run));
      }
    }
  }

  /** And the manifests half leaves posts and bucket alone. */
  lemma {:induction false} BlogRunKeepsPosts(formats: Formats, w: World, run: seq<Effect>)
    requires BlogsOnly(run)
    ensures var w' := Replay(formats, w, run);
      w'.db.posts == w.db.posts && w'.origin == w.origin && w'.bucket == w.bucket
  {
    if run != [] {
      var init, last := run[..|run| - 1], run[|run| - 1];
      BlogRunKeepsPosts(formats, w, init);
      assert last in run;
      if Legal(formats, Replay(formats, w, init), last) {
        ManifestIsNoPost(last.path);
        PostsUntouched(Replay(formats, w, init), last.path, last.blog, last.k);
        BlogStageFields(Replay(formats, w, init), last.path, last.blog, last.k);
      }
    }
  }

  // ---- the fate of a post file ----

  /** Every row of the table is one the seeder recorded: true of a fresh database, and kept. */
  ghost predicate AllFromFiles(w: World) {
    w.db.posts.Keys == w.origin.Keys
  }

  ghost predicate IsRowOf(w: World, id: string, inode: nat) {
    id in w.db.posts && id in w.origin && w.origin[id] == inode
  }

  lemma AllFromFilesStays(formats: Formats, w0: World, w: World)
    requires AllFromFiles(w0) && Inv(formats, w) && Kept(formats, w0, w)
    ensures AllFromFiles(w)
  {
  }

  /**
   Where a post file is after any history: at exactly one place, its own or the folder of its row. And the rows of
   the table that are made from it are at most one.
   */
  lemma FileFate(formats: Formats, w0: World, w: World, p: Path) returns (q: Path)
    requires AllFromFiles(w0) && Inv(formats, w) && Kept(formats, w0, w) && p in w0.files && IsMd(p)
    ensures Holds(w, q, w0.files[p]) && forall r :: Holds(w, r, w0.files[p]) ==> r == q
    ensures q == p || (|p| == 2 && |q| == 3 && q[0] == p[0] && q[2] == p[1] && IsRowOf(w, q[1], w0.files[p].inode))
    ensures w.db.posts.Keys == w.origin.Keys
    ensures forall a, b :: IsRowOf(w, a, w0.files[p].inode) && IsRowOf(w, b, w0.files[p].inode) ==> a == b
    ensures forall a :: IsRowOf(w, a, w0.files[p].inode) ==> MadeFrom(formats, w, a, q)
  {
    AllFromFilesStays(formats, w0, w);
    var f := w0.files[p];
    assert StillThere(w, p, f);
    if Holds(w, p, f) {
      q := p;
    } else {
      var id :| id in w.origin && w.origin[id] == f.inode && Holds(w, [p[0], id, p[1]], f);
      q := [p[0], id, p[1]];
      assert IsMd(q);
    }
  }

  function PostFiles(w: World): set<Path> {
    set p | p in w.files && IsMd(p)
  }

  function Inodes(w: World, paths: set<Path>): set<nat>
    requires paths <= w.files.Keys
  {
    set p | p in paths :: w.files[p].inode
  }

  lemma {:induction false} FewerInodes(w: World, paths: set<Path>)
    requires paths <= w.files.Keys
    ensures |Inodes(w, paths)| <= |paths|
  {
    if paths != {} {
      var p :| p in paths;
      FewerInodes(w, paths - {p});
      assert Inodes(w, paths) == Inodes(w, paths - {p}) + {w.files[p].inode};
    }
  }

  function RowInodes(w: World, ids: set<string>): set<nat>
    requires ids <= w.origin.Keys
  {
    set id | id in ids :: w.origin[id]
  }

  lemma {:induction false} RowInodesCount(formats: Formats, w: World, ids: set<string>)
    requires OriginsOk(formats, w) && ids <= w.origin.Keys
    ensures |RowInodes(w, ids)| == |ids|
  {
    if ids != {} {
      var id :| id in ids;
      RowInodesCount(formats, w, ids - {id});
      assert RowInodes(w, ids) == RowInodes(w, ids - {id}) + {w.origin[id]};
      assert w.origin[id] !in RowInodes(w, ids - {id});
    }
  }

  /** So however often it starts and fails, from an empty table the seeder never makes more rows than post files. */
  lemma NoMoreRowsThanFiles(formats: Formats, w0: World, w: World)
    requires w0.db.posts == map[] && w0.origin == map[] && Inv(formats, w) && Kept(formats, w0, w)
    ensures |w.db.posts| <= |PostFiles(w0)|
  {
    AllFromFilesStays(formats, w0, w);
    RowInodesCount(formats, w, w.origin.Keys);
    forall inode | inode in RowInodes(w, w.origin.Keys) ensures inode in Inodes(w0, PostFiles(w0)) {
      assert FromFile(w0, inode);
    }
    SubsetSize(RowInodes(w, w.origin.Keys), Inodes(w0, PostFiles(w0)));
    FewerInodes(w0, PostFiles(w0));
    assert |w.db.posts| == |w.db.posts.Keys|;
  }

  // ---- the fate of a row ----

  lemma ShelvedStays(formats: Formats, w: World, w': World, id: string)
    requires Inv(formats, w) && Kept(formats, w, w') && Shelved(formats, w, id)
    ensures Shelved(formats, w', id)
  {
    var p :| ShelvedAt(formats, w, id, p);
    assert StillThere(w', p, w.files[p]);
    assert SameObject(w, w', w.db.posts[id].s3Key);
    assert ShelvedAt(formats, w', id, p);
  }

  lemma ShelvedBefore(formats: Formats, w: World, w': World, id: string)
    requires Inv(formats, w) && Inv(formats, w') && Kept(formats, w, w')
    requires id in w.db.posts && id in w.origin && Shelved(formats, w', id)
    ensures Shelved(formats, w, id)
  {
    var p :| ShelvedAt(formats, w', id, p);
    assert CameFrom(w, w'.files[p]);
    var q :| q in w.files && IsMd(q) && w.files[q] == w'.files[p];
    assert HasRow(w, w.files[q].inode);
    assert Holds(w', q, w.files[q]);
    assert q == p;
    assert SameObject(w, w', w.db.posts[id].s3Key);
    assert ShelvedAt(formats, w, id, p);
  }

  /**
   Over any history a row that is there keeps exactly its object, present or absent; and it is complete afterwards
   if and only if it was complete before.
   */
  lemma RowFate(formats: Formats, w: World, w': World, id: string)
    requires Inv(formats, w) && Inv(formats, w') && Kept(formats, w, w') && id in w.db.posts && id in w.origin
    ensures SameObject(w, w', w.db.posts[id].s3Key)
    ensures Shelved(formats, w', id) <==> Shelved(formats, w, id)
  {
    if Shelved(formats, w, id) { ShelvedStays(formats, w, w', id); }
    if Shelved(formats, w', id) { ShelvedBefore(formats, w, w', id); }
  }

  /** The call got to the end, or to all but an upload of what the bucket holds already. */
  ghost predicate Completes(w: World, e: Effect)
    requires e.PostEffect? && IsLive(w.db, e.job.params.blogId)
  {
    var key := NewPost(w.db, e.job.params, e.publicId).s3Key;
    e.k == POST_STAGES || ((e.loose ==> e.k == 3) && key in w.bucket && w.bucket[key] == e.job.body)
  }

  lemma StageCompletes(formats: Formats, w: World, e: Effect)
    requires TreeOk(w) && BlogsIndexed(w.db) && Legal(formats, w, e) && e.PostEffect? && Completes(w, e)
    ensures Shelved(formats, After(formats, w, e), e.publicId)
  {
    PostStageFields(formats, w, e);
    PlanFacts(formats, w, e.path, e.job);
    StageIsShelved(formats, w, After(formats, w, e), e);
  }

  lemma StageIsShelved(formats: Formats, w: World, w': World, e: Effect)
    requires e.PostEffect? && IsPublicId(e.publicId) && IsMd(e.path) && |e.path| == (if e.loose then 2 else 3)
    requires e.path in w.files && HasSlug(w.db, e.job.params.blogId, e.path[0])
    requires !e.loose ==> e.path[1] == e.publicId
    requires PostAllowed(w.db, e.job.params, e.publicId) && Completes(w, e)
    requires ParsePost(formats, w.files[e.path].text).Some?
    requires e.job.body == ParsePost(formats, w.files[e.path].text).value.1
    requires IsPostStage(w, w', e.path, e.publicId, e.job, e.loose, e.k)
    ensures Shelved(formats, w', e.publicId)
  {
    var home := HomeOf(e.path, e.publicId);
    if !e.loose { assert home == e.path; }
    assert ShelvedAt(formats, w', e.publicId, home);
  }

  function PlaceAfter(e: Effect): Path
    requires e.PostEffect? && e.path != []
  {
    if e.loose && e.k < 3 then e.path else HomeOf(e.path, e.publicId)
  }

  lemma OnlyPlaceAfter(w: World, w': World, e: Effect, p: Path)
    requires TreeOk(w) && e.PostEffect? && e.path in w.files && |e.path| == (if e.loose then 2 else 3)
    requires w'.files == if e.loose && e.k >= 3 then (w.files - {e.path})[PlaceAfter(e) := w.files[e.path]] else w.files
    requires !e.loose ==> e.path == PlaceAfter(e)
    requires p in w'.files && w'.files[p].inode == w.files[e.path].inode
    ensures p == PlaceAfter(e) && Holds(w', p, w.files[e.path])
  {
  }

  lemma OnlyCompleteStages(formats: Formats, w: World, e: Effect)
    requires TreeOk(w) && BlogsIndexed(w.db) && Legal(formats, w, e) && e.PostEffect?
    requires Shelved(formats, After(formats, w, e), e.publicId)
    ensures Completes(w, e)
  {
    PostStageFields(formats, w, e);
    PlanFacts(formats, w, e.path, e.job);
    var p :| ShelvedAt(formats, After(formats, w, e), e.publicId, p);
    OnlyShelvedPlace(formats, w, After(formats, w, e), e, p);
  }

  lemma OnlyShelvedPlace(formats: Formats, w: World, w': World, e: Effect, p: Path)
    requires TreeOk(w) && e.PostEffect? && e.path in w.files && |e.path| == (if e.loose then 2 else 3)
    requires !e.loose ==> e.path[1] == e.publicId
    requires HasSlug(w.db, e.job.params.blogId, e.path[0]) && PostAllowed(w.db, e.job.params, e.publicId)
    requires 0 < e.k <= POST_STAGES
    requires ParsePost(formats, w.files[e.path].text).Some?
    requires e.job.body == ParsePost(formats, w.files[e.path].text).value.1
    requires IsPostStage(w, w', e.path, e.publicId, e.job, e.loose, e.k)
    requires e.publicId in w'.db.posts && e.publicId in w'.origin && ShelvedAt(formats, w', e.publicId, p)
    ensures Completes(w, e)
  {
    if !e.loose { assert HomeOf(e.path, e.publicId) == e.path; }
    OnlyPlaceAfter(w, w', e, p);
    OnlyShelvedStage(formats, w, w', e, p);
  }

  lemma OnlyShelvedStage(formats: Formats, w: World, w': World, e: Effect, p: Path)
    requires e.PostEffect? && e.path in w.files && |e.path| == (if e.loose then 2 else 3)
    requires HasSlug(w.db, e.job.params.blogId, e.path[0]) && PostAllowed(w.db, e.job.params, e.publicId)
    requires 0 < e.k <= POST_STAGES && p == PlaceAfter(e) && Holds(w', p, w.files[e.path])
    requires ParsePost(formats, w.files[e.path].text).Some?
    requires e.job.body == ParsePost(formats, w.files[e.path].text).value.1
    requires IsPostStage(w, w', e.path, e.publicId, e.job, e.loose, e.k)
    requires e.publicId in w'.db.posts && e.publicId in w'.origin && ShelvedAt(formats, w', e.publicId, p)
    ensures Completes(w, e)
  {
  }

  /** The call that inserts a row leaves it complete if and only if it gets to the end. */
  lemma StageCompleteIff(formats: Formats, w: World, e: Effect)
    requires Inv(formats, w) && Legal(formats, w, e) && e.PostEffect?
    ensures IsRowOf(After(formats, w, e), e.publicId, w.files[e.path].inode)
    ensures Shelved(formats, After(formats, w, e), e.publicId) <==> Completes(w, e)
  {
    PostStageFields(formats, w, e);
    if Completes(w, e) { StageCompletes(formats, w, e); }
    if Shelved(formats, After(formats, w, e), e.publicId) { OnlyCompleteStages(formats, w, e); }
  }

  /** The i-th effect of a history is the one that inserts this row. */
  ghost predicate Inserts(formats: Formats, w: World, run: seq<Effect>, i: nat, id: string) {
    && i < |run| && run[i].PostEffect? && run[i].publicId == id
    && Legal(formats, Replay(formats, w, run[..i]), run[i])
  }

  lemma ManifestMakesNoPost(formats: Formats, w: World, e: Effect)
    requires e.BlogEffect?
    ensures After(formats, w, e).db.posts == w.db.posts
  {
    if Legal(formats, w, e) {
      ManifestIsNoPost(e.path);
      PostsUntouched(w, e.path, e.blog, e.k);
    }
  }

  lemma NewRowIsInserted(formats: Formats, w: World, e: Effect, id: string)
    requires id in After(formats, w, e).db.posts && id !in w.db.posts
    ensures Legal(formats, w, e) && e.PostEffect? && e.publicId == id
  {
    if e.BlogEffect? {
      ManifestMakesNoPost(formats, w, e);
    } else if Legal(formats, w, e) {
      PostStageFields(formats, w, e);
    }
  }

  lemma {:induction false} SomeEffectInserts(formats: Formats, w: World, run: seq<Effect>, id: string) returns (i: nat)
    requires Inv(formats, w) && id in Replay(formats, w, run).db.posts && id !in w.db.posts
    ensures Inserts(formats, w, run, i, id)
  {
    var init, last := run[..|run| - 1], run[|run| - 1];
    var before := Replay(formats, w, init);
    if id in before.db.posts {
      i := SomeEffectInserts(formats, w, init, id);
      assert init[..i] == run[..i];
    } else {
      i := |run| - 1;
      NewRowIsInserted(formats, before, last, id);
    }
  }

  lemma ReplaySplit(formats: Formats, w: World, run: seq<Effect>, i: nat)
    requires i < |run|
    ensures Replay(formats, w, run) ==
      Replay(formats, After(formats, Replay(formats, w, run[..i]), run[i]), run[i + 1..])
  {
    assert run == run[..i + 1] + run[i + 1..];
    ReplayAppend(formats, w, run[..i + 1], run[i + 1..]);
    assert run[..i + 1][..i] == run[..i];
  }

  /**
   After any history - failures, lost answers, stops and restarts anywhere - a new row has its file, its key and its
   object if and only if the one call that inserted it got to the end; no later call makes up for it.
   */
  lemma RowCompleteIff(formats: Formats, w: World, run: seq<Effect>, id: string) returns (i: nat)
    requires Inv(formats, w) && id in Replay(formats, w, run).db.posts && id !in w.db.posts
    ensures Inserts(formats, w, run, i, id)
    ensures Shelved(formats, Replay(formats, w, run), id) <==> Completes(Replay(formats, w, run[..i]), run[i])
  {
    i := SomeEffectInserts(formats, w, run, id);
    var before := Replay(formats, w, run[..i]);
    var after := After(formats, before, run[i]);
    RunKeeps(formats, w, run[..i]);
    EffectKeeps(formats, before, run[i]);
    ReplaySplit(formats, w, run, i);
    LaterRowFate(formats, before, run[i], run[i + 1..], id);
  }

  lemma LaterRowFate(formats: Formats, w: World, e: Effect, later: seq<Effect>, id: string)
    requires Inv(formats, w) && Legal(formats, w, e) && e.PostEffect? && e.publicId == id
    ensures Shelved(formats, Replay(formats, After(formats, w, e), later), id) <==> Completes(w, e)
  {
    EffectKeeps(formats, w, e);
    StageCompleteIff(formats, w, e);
    RunKeeps(formats, After(formats, w, e), later);
    RowFate(formats, After(formats, w, e), Replay(formats, After(formats, w, e), later), id);
  }
}
