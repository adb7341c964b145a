/**
 Whole lives of the source tree: any number of starts of the process, each with its own failures, and what a start
 without failures makes of it afterwards.
 */
module Restarting {
  import opened Prelude
  import opened Slug
  import opened PublicId
  import opened Database
  import opened SeedWorld
  import opened SeedSettled
  import opened BlogSettled
  import opened SeedRun
  import opened SeedStill
  import opened Seeder

  /** The fault plan of one start of the process, and the identifiers it will draw. */
  datatype RunPlan = RunPlan(outcomes: nat -> Outcome, ids: nat -> string)

  /** The plan can draw no name of a folder that has no row. */
  ghost predicate CanStart(w: World, plan: RunPlan) {
    ClearOf(w, plan.ids) && forall n :: IsPublicId(plan.ids(n))
  }

  /**
   Any number of starts, each with any pattern of failed, lost and never-made steps: together they are one history
   of effects, so the invariant holds after all of them, no post file is lost, and no file has two rows.
   */
  method Restarts(disk: Disk, store: Store, bucket: Bucket, formats: Formats, plans: seq<RunPlan>)
    returns (ghost history: seq<Effect>)
    requires Inv(formats, Snapshot(disk, store, bucket))
    requires forall i :: 0 <= i < |plans| ==> CanStart(Snapshot(disk, store, bucket), plans[i])
    modifies disk, store, bucket
    ensures Snapshot(disk, store, bucket) == Replay(formats, old(Snapshot(disk, store, bucket)), history)
    ensures Inv(formats, Snapshot(disk, store, bucket))
    ensures Kept(formats, old(Snapshot(disk, store, bucket)), Snapshot(disk, store, bucket))
  {
    ghost var w0 := Snapshot(disk, store, bucket);
    history := [];
    for i := 0 to |plans|
      invariant Snapshot(disk, store, bucket) == Replay(formats, w0, history)
    {
      ghost var run := Start(disk, store, bucket, formats, plans[i], w0, history);
      history := history + run;
    }
    RunKeeps(formats, w0, history);
  }

  /** One start after a history. */
  method Start(
      disk: Disk, store: Store, bucket: Bucket, formats: Formats, plan: RunPlan,
      ghost w0: World, ghost history: seq<Effect>)
    returns (ghost run: seq<Effect>)
    requires Inv(formats, w0) && CanStart(w0, plan) && Snapshot(disk, store, bucket) == Replay(formats, w0, history)
    modifies disk, store, bucket
    ensures Snapshot(disk, store, bucket) == Replay(formats, w0, history + run)
    ensures (forall n :: plan.outcomes(n) == Done) && OwnNamed(formats, w0)
      ==> BlogsSettled(formats, Snapshot(disk, store, bucket))
  {
    ghost var w := Snapshot(disk, store, bucket);
    RunKeeps(formats, w0, history);
    ClearStays(w0, w, plan.ids);
    var seeder := new Seeder(disk, store, bucket, formats, plan.outcomes, plan.ids);
    var ok;
    ok, run := seeder.Seed();
    ReplayMore(formats, w0, history, run, Snapshot(disk, store, bucket));
  }

  ghost predicate ManifestsHaveRows(formats: Formats, w: World) {
    forall path :: CouldHaveRow(formats, w, path) ==> FindBlog(w.db, BlogPlan(formats, w, path).value.slug).Some?
  }

  /**
   However runs were stopped before - between moving a manifest and inserting its row, too - one run without failed
   steps repairs it: every manifest the seeder looks at whose row would be allowed has its row.
   */
  method Repair(disk: Disk, store: Store, bucket: Bucket, formats: Formats, plans: seq<RunPlan>, last: RunPlan)
    returns (ghost history: seq<Effect>)
    requires Inv(formats, Snapshot(disk, store, bucket)) && OwnNamed(formats, Snapshot(disk, store, bucket))
    requires forall i :: 0 <= i < |plans| ==> CanStart(Snapshot(disk, store, bucket), plans[i])
    requires CanStart(Snapshot(disk, store, bucket), last) && forall n :: last.outcomes(n) == Done
    modifies disk, store, bucket
    ensures Snapshot(disk, store, bucket) == Replay(formats, old(Snapshot(disk, store, bucket)), history)
    ensures BlogsSettled(formats, Snapshot(disk, store, bucket))
    ensures ManifestsHaveRows(formats, Snapshot(disk, store, bucket))
  {
    ghost var w0 := Snapshot(disk, store, bucket);
    history := Restarts(disk, store, bucket, formats, plans);
    ghost var run := Start(disk, store, bucket, formats, last, w0, history);
    history := history + run;
    RunKeeps(formats, w0, history);
    SettledManifestsHaveRows(formats, Snapshot(disk, store, bucket));
  }

  lemma SettledManifestsHaveRows(formats: Formats, w: World)
    requires BlogsSettled(formats, w) && BlogsIndexed(w.db)
    ensures ManifestsHaveRows(formats, w)
  {
    forall path | CouldHaveRow(formats, w, path)
      ensures FindBlog(w.db, BlogPlan(formats, w, path).value.slug).Some?
    {
      ValidManifestHasRow(formats, w, path);
    }
  }

  /** Two starts on the same tree, rows and bucket. */
  ghost predicate SameStores(first: Seeder, second: Seeder) {
    && first != second && second.formats == first.formats
    && second.disk == first.disk && second.store == first.store && second.bucket == first.bucket
  }

  /** The draws that the loose files of the tree can take are new and differ. */
  ghost predicate DrawsSuffice(s: Seeder)
    reads s, s.disk, s.store
  {
    Fresh(s.ids, s.store.posts.Keys, s.drawn, s.drawn + |LooseFiles(s.disk.files)|)
  }

  /**
   Seeding twice with no failed step is seeding once, if and only if the first run leaves no manifest with work, as it
   does where folders are named by their own manifests. It leaves no post with work in any case.
   */
  method SeedTwice(first: Seeder, second: Seeder) returns (ghost once: World)
    requires SameStores(first, second) && first.Ready() && second.Ready() && first.smooth && second.smooth
    requires first.AllDone() && second.AllDone() && DrawsSuffice(first)
    modifies first, second, first.disk, first.store, first.bucket
    ensures PostsSettled(first.formats, once) && Grown(first.formats, old(first.State()), once)
    ensures first.NewRowsShelved(old(first.State()), once)
    ensures first.State() == once <==> ManifestsStill(first.formats, once)
    ensures OwnNamed(first.formats, old(first.State())) ==>
      Settled(first.formats, once) && ManifestsStill(first.formats, once)
    ensures Inv(first.formats, old(first.State())) ==>
      Inv(first.formats, once) && Kept(first.formats, old(first.State()), once)
  {
    var ok, run := first.Seed();
    once := first.State();
    ClearStays(old(first.State()), once, second.ids);
    if BlogsSettled(first.formats, once) { SettledIsStill(first.formats, once); }
    ok, run := second.Seed();
  }

  // ---- such starts exist ----

  const EXAMPLE_POST := (Frontmatter("hello", "", "hello", true, None, false, true), "body")

  function ExampleFormats(): Formats {
    Formats(text => None, text => if text == "post" then Some(EXAMPLE_POST) else None, text => None, text => None)
  }

  const EXAMPLE_BLOG := CreateBlogParams(1, "notes", "notes", None, "public", "open", None)

  function ExampleId(): string {
    Uniform('a')
  }

  const EXAMPLE_FILE: Path := ["notes", "hello.md"]

  /** One blog with its row, and one loose post without. */
  function ExampleWorld(): World {
    World(map[EXAMPLE_FILE := File(0, "post")], {["notes"]},
          Apply(EmptyDb(map["ann" := 1]), InsertBlog(EXAMPLE_BLOG)), map[], map[])
  }

  lemma ExampleIdIsPublic()
    ensures IsPublicId(ExampleId())
  {
    UniformIsPublicId('a');
  }

  lemma ExampleBlogIsThere()
    ensures Indexed(ExampleWorld().db) && ExampleWorld().db.posts == map[] && ExampleWorld().db.users == map["ann" := 1]
    ensures HasSlug(ExampleWorld().db, 1, "notes") && ExampleWorld().db.blogs[1].ownerId == 1
  {
    PlainWord("notes");
    var empty := EmptyDb(map["ann" := 1]);
    assert 1 == empty.users["ann"];
    assert BlogAllowed(empty, EXAMPLE_BLOG);
    assert Indexed(empty);
    ApplyKeepsIndexed(empty, InsertBlog(EXAMPLE_BLOG));
  }

  lemma ExampleStart(ids: nat -> string)
    ensures Inv(ExampleFormats(), ExampleWorld()) && OwnNamed(ExampleFormats(), ExampleWorld())
    ensures ClearOf(ExampleWorld(), ids)
  {
    ExampleBlogIsThere();
    assert Parent(EXAMPLE_FILE) == ["notes"];
    forall d | [d] in ExampleWorld().dirs ensures OwnNamedDir(ExampleFormats(), ExampleWorld(), d) {
      assert [d, "blog.yml"][1] != EXAMPLE_FILE[1] && [d, "blog.yaml"][1] != EXAMPLE_FILE[1];
    }
  }

  /** The row that the post asks for. */
  lemma ExamplePlan(w: World)
    requires BlogsIndexed(w.db) && RowsKept(ExampleWorld(), w) && Holds(w, EXAMPLE_FILE, File(0, "post"))
    ensures Plan(ExampleFormats(), w, EXAMPLE_FILE) == Some(PostJob(
      CreatePostParams(1, 1, Some("hello"), "hello", None, false, None, false, true, true, None), "body"))
    ensures IsLive(w.db, 1) && 1 in w.db.users.Values
  {
    ExampleBlogIsThere();
    PlainWord("notes");
    assert SameBlog(ExampleWorld().db.blogs[1], w.db.blogs[1]);
    FindBlogUnique(w.db, 1, "notes");
    assert 1 == w.db.users["ann"];
    assert ParsePost(ExampleFormats(), "post") == Some(EXAMPLE_POST);
  }

  /** Where the post is still loose and has no row, it is not one the seeder refuses. */
  lemma ExamplePostIsAllowed(w: World)
    requires BlogsIndexed(w.db) && RowsKept(ExampleWorld(), w) && w.db.posts == map[]
    requires Holds(w, EXAMPLE_FILE, File(0, "post"))
    ensures !Refused(ExampleFormats(), w, EXAMPLE_FILE)
  {
    ExamplePlan(w);
    PlainWord("hello");
  }

  lemma ExampleEnd(w: World) returns (id: string)
    requires Inv(ExampleFormats(), w) && Settled(ExampleFormats(), w) && Kept(ExampleFormats(), ExampleWorld(), w)
    requires forall i :: i in w.db.posts && i !in ExampleWorld().db.posts ==> Shelved(ExampleFormats(), w, i)
    ensures Shelved(ExampleFormats(), w, id)
  {
    ExampleBlogIsThere();
    if w.db.posts.Keys != {} {
      id :| id in w.db.posts;
    } else {
      assert w.db.posts == map[];
      assert IsMd(EXAMPLE_FILE) by { assert "hello.md"[5..] == ".md"; }
      var q := FileFate(ExampleFormats(), ExampleWorld(), w, EXAMPLE_FILE);
      assert DirSettled(ExampleFormats(), w, "notes");
      ExamplePostIsAllowed(w);
      assert false;
    }
  }

  /** All that SeedTwice asks of a start. */
  ghost predicate IsGoodStart(formats: Formats, w: World, ids: nat -> string) {
    && Inv(formats, w) && OwnNamed(formats, w) && ClearOf(w, ids)
    && Fresh(ids, w.db.posts.Keys, 0, |LooseFiles(w.files)|)
    && forall n :: IsPublicId(ids(n))
  }

  lemma ExampleDraws(ids: nat -> string)
    requires forall n :: ids(n) == ExampleId()
    ensures Fresh(ids, {}, 0, |LooseFiles(ExampleWorld().files)|)
    ensures forall n :: IsPublicId(ids(n))
  {
    ExampleIdIsPublic();
    assert LooseFiles(ExampleWorld().files) <= {EXAMPLE_FILE};
    SubsetSize(LooseFiles(ExampleWorld().files), {EXAMPLE_FILE});
  }

  lemma ExampleIsGood(w: World, ids: nat -> string)
    requires w == ExampleWorld() && forall n :: ids(n) == ExampleId()
    ensures IsGoodStart(ExampleFormats(), w, ids)
  {
    ExampleStart(ids);
    ExampleBlogIsThere();
    ExampleDraws(ids);
    var posts := w.db.posts;
    assert posts.Keys == {};
  }

  /** The example's tree, rows and bucket. */
  method MakeExample() returns (disk: Disk, store: Store, bucket: Bucket)
    ensures fresh(disk) && fresh(store) && fresh(bucket)
    ensures Snapshot(disk, store, bucket) == ExampleWorld()
  {
    disk := new Disk(map[EXAMPLE_FILE := File(0, "post")], {["notes"]});
    store := new Store(map["ann" := 1]);
    bucket := new Bucket();
    var blog := store.CreateBlog(EXAMPLE_BLOG);
  }

  /** Two starts, neither with a failed step. */
  method StartTwice(disk: Disk, store: Store, bucket: Bucket, formats: Formats, ids: nat -> string)
    returns (ghost once: World)
    requires IsGoodStart(formats, Snapshot(disk, store, bucket), ids)
    modifies disk, store, bucket
    ensures Settled(formats, once) && Inv(formats, once) && Kept(formats, old(Snapshot(disk, store, bucket)), once)
    ensures forall id :: id in once.db.posts && id !in old(store.posts) ==> Shelved(formats, once, id)
    ensures Snapshot(disk, store, bucket) == once
  {
    var first := new Seeder(disk, store, bucket, formats, n => Done, ids);
    var second := new Seeder(disk, store, bucket, formats, n => Done, ids);
    assert first.State() == old(Snapshot(disk, store, bucket));
    once := SeedTwice(first, second);
  }

  /** Everything is there that the theorem asks for; the post gets its row, its folder and its object. */
  method Example() returns (disk: Disk, store: Store, bucket: Bucket, ghost id: string)
    ensures Shelved(ExampleFormats(), Snapshot(disk, store, bucket), id)
  {
    disk, store, bucket := MakeExample();
    var ids := n => ExampleId();
    ExampleIsGood(Snapshot(disk, store, bucket), ids);
    ghost var once := StartTwice(disk, store, bucket, ExampleFormats(), ids);
    id := ExampleEnd(once);
  }

  /** Every file is a manifest of the blog "notes". */
  function NotesFormats(): Formats {
    Formats(text => Some(NOTES_JOB.manifest), text => None, text => None, text => None)
  }

  const LOOSE_MANIFEST: Path := ["a.yml"]

  const OLD_MANIFEST: Path := ["notes", "blog.yml"]

  function TwoManifests(db: Db): World {
    World(map[LOOSE_MANIFEST := File(0, "new"), OLD_MANIFEST := File(1, "old")], {["notes"]}, db, map[], map[])
  }

  const NOTES_JOB := BlogJob(1, "notes", Manifest("notes", "", "public", "open", None, "ann"))

  const NOTES_EFFECT := BlogEffect(LOOSE_MANIFEST, NOTES_JOB, BLOG_STAGES)

  /** Such a move happens, in a tree in good order, both for a new blog and for one that has its row. */
  lemma ManifestLost(known: bool) returns (w: World)
    ensures Inv(NotesFormats(), w) && Legal(NotesFormats(), w, NOTES_EFFECT)
    ensures FindBlog(w.db, "notes").Some? == known
    ensures HasPlace(w, 1) && !HasPlace(After(NotesFormats(), w, NOTES_EFFECT), 1)
  {
    ExampleBlogIsThere();
    w := TwoManifests(if known then ExampleWorld().db else EmptyDb(map["ann" := 1]));
    if known {
      FindBlogUnique(w.db, 1, "notes");
    }
    TwoManifestsOk(w.db);
    NotesJobIsPlanned(w.db);
    NotesMove(w);
    OldManifestLost(w);
  }

  lemma NotesJobIsPlanned(db: Db)
    requires db.users == map["ann" := 1]
    ensures BlogPlan(NotesFormats(), TwoManifests(db), LOOSE_MANIFEST) == Some(NOTES_JOB)
    ensures IsManifestPath(LOOSE_MANIFEST)
  {
    PlainWord("notes");
    assert "a.yml"[1..] == ".yml";
  }

  lemma NotesAreUpdated(db: Db)
    requires Indexed(db) && db.users == map["ann" := 1]
    requires HasSlug(db, 1, "notes") && db.blogs[1].ownerId == 1
    ensures FindBlog(db, "notes") == Some(db.blogs[1]) && UpdateAllowed(db, UpdateParams(NOTES_JOB, 1))
  {
    PlainWord("notes");
    FindBlogUnique(db, 1, "notes");
    OnlyHolder(db, 1, "notes");
  }

  lemma OldManifestLost(w: World)
    requires TreeOk(w) && Legal(NotesFormats(), w, NOTES_EFFECT) && Home(NOTES_JOB) == OLD_MANIFEST
    requires OLD_MANIFEST in w.files && w.files[OLD_MANIFEST].inode == 1
    requires ManifestMoved(w, LOOSE_MANIFEST, NOTES_JOB, BLOG_STAGES)
    ensures HasPlace(w, 1) && !HasPlace(After(NotesFormats(), w, NOTES_EFFECT), 1)
  {
    ManifestReplaced(w, LOOSE_MANIFEST, NOTES_JOB, BLOG_STAGES, OLD_MANIFEST);
    assert LOOSE_MANIFEST != OLD_MANIFEST;
  }

  lemma NotesMove(w: World)
    requires Indexed(w.db) && w.db.users == map["ann" := 1]
    requires FindBlog(w.db, "notes").Some? ==> HasSlug(w.db, 1, "notes") && w.db.blogs[1].ownerId == 1
    ensures ManifestMoved(w, LOOSE_MANIFEST, NOTES_JOB, BLOG_STAGES)
  {
    if FindBlog(w.db, "notes").Some? { NotesAreUpdated(w.db); }
  }

  lemma TwoManifestsOk(db: Db)
    requires Indexed(db) && db.posts == map[]
    ensures Inv(NotesFormats(), TwoManifests(db))
  {
    assert Parent(OLD_MANIFEST) == ["notes"];
  }
}
