/**
 The life of a deployment: starts of the seeder, each with its own failures, and between them statements on blogs by
 others. What a start needs is that the tree and the rows are in order, and all of that keeps them so.
 */
module Lifetimes {
  import opened Prelude
  import opened Slug
  import opened PublicId
  import opened Database
  import opened SeedWorld
  import opened SeedSettled
  import opened BlogSettled
  import opened SeedRun
  import opened Seeder
  import opened Restarting
  import opened Interleaved

  /** One start of the process, or one statement on a blog. */
  datatype Turn = Boot(plan: RunPlan) | Statement(made: Statement)

  /** A start that can draw no name of a folder without a row; statements on posts are the seeder's alone. */
  ghost predicate CanTake(w: World, turn: Turn) {
    match turn
    case Boot(plan) => CanStart(w, plan)
    case Statement(s) => !s.InsertPost?
  }

  function StatementsIn(turns: seq<Turn>): seq<Database.Statement> {
    if turns == [] then []
    else
      StatementsIn(turns[..|turns| - 1]) +
      match turns[|turns| - 1] case Boot(_) => [] case Statement(s) => [s]
  }

  function StatementsOf(events: seq<Event>): seq<Database.Statement> {
    if events == [] then []
    else
      StatementsOf(events[..|events| - 1]) +
      match events[|events| - 1] case Seeding(_) => [] case Admin(s) => [s]
  }

  function Seedings(run: seq<Effect>): seq<Event> {
    seq(|run|, i requires 0 <= i < |run| => Seeding(run[i]))
  }

  lemma {:induction false} HistoryAppend(formats: Formats, w: World, a: seq<Event>, b: seq<Event>)
    ensures History(formats, w, a + b) == History(formats, History(formats, w, a), b)
    ensures StatementsOf(a + b) == StatementsOf(a) + StatementsOf(b)
  {
    if b == [] {
      assert a + b == a;
    } else {
      HistoryAppend(formats, w, a, b[..|b| - 1]);
      assert (a + b)[..|a + b| - 1] == a + b[..|b| - 1];
    }
  }

  /** A run of the seeder is a history of its effects. */
  lemma {:induction false} RunIsHistory(formats: Formats, w: World, run: seq<Effect>)
    ensures History(formats, w, Seedings(run)) == Replay(formats, w, run)
    ensures StatementsOf(Seedings(run)) == []
  {
    if run != [] {
      var init := run[..|run| - 1];
      RunIsHistory(formats, w, init);
      assert Seedings(run)[..|run| - 1] == Seedings(init);
    }
  }

  lemma OneStatement(formats: Formats, w: World, s: Database.Statement)
    requires !s.InsertPost?
    ensures History(formats, w, [Admin(s)]) == w.(db := Apply(w.db, s))
    ensures StatementsOf([Admin(s)]) == [s]
  {
    assert [Admin(s)][..0] == [];
  }

  // ---- what starts rest on ----

  lemma StatementGrows(formats: Formats, w: World, s: Database.Statement)
    requires InOrder(w) && !s.InsertPost?
    ensures var w' := w.(db := Apply(w.db, s)); InOrder(w') && Grown(formats, w, w')
  {
    ApplyKeepsIndexed(w.db, s);
    AdminKeepsPosts(w.db, s);
  }

  lemma EventGrows(formats: Formats, w: World, e: Event)
    requires InOrder(w)
    ensures InOrder(Next(formats, w, e)) && Grown(formats, w, Next(formats, w, e))
  {
    match e
    case Admin(s) => if !s.InsertPost? { StatementGrows(formats, w, s); }
    case Seeding(effect) =>
      RunInOrder(formats, w, [effect]);
      ReplayOne(formats, w, effect);
  }

  /** Whatever happens, a start finds the tree and the rows in order, and all that was there. */
  lemma {:induction false} HistoryGrows(formats: Formats, w: World, events: seq<Event>)
    requires InOrder(w)
    ensures InOrder(History(formats, w, events)) && Grown(formats, w, History(formats, w, events))
  {
    if events != [] {
      var before := History(formats, w, events[..|events| - 1]);
      HistoryGrows(formats, w, events[..|events| - 1]);
      EventGrows(formats, before, events[|events| - 1]);
      GrownTrans(formats, w, before, History(formats, w, events));
    }
  }

  // ---- lives ----

  ghost predicate IsGoodBoot(turn: Turn) {
    turn.Boot? && forall n :: turn.plan.outcomes(n) == Done
  }

  /**
   Any number of starts, each with any pattern of failed, lost and never-made steps, and any statements on blogs
   between them: a history of effects and just these statements. So no row loses its file, and the rows of a file are
   of different blogs. And when all ends with a start in which no step fails, every manifest is settled.
   */
  method Live(disk: Disk, store: Store, bucket: Bucket, formats: Formats, turns: seq<Turn>)
    returns (ghost events: seq<Event>)
    requires WeakInv(formats, Snapshot(disk, store, bucket))
    requires forall i :: 0 <= i < |turns| ==> CanTake(Snapshot(disk, store, bucket), turns[i])
    modifies disk, store, bucket
    ensures Snapshot(disk, store, bucket) == History(formats, old(Snapshot(disk, store, bucket)), events)
    ensures StatementsOf(events) == StatementsIn(turns)
    ensures WeakInv(formats, Snapshot(disk, store, bucket))
    ensures turns != [] && IsGoodBoot(turns[|turns| - 1]) && OwnNamed(formats, old(Snapshot(disk, store, bucket))) ==>
      BlogsSettled(formats, Snapshot(disk, store, bucket)) && ManifestsHaveRows(formats, Snapshot(disk, store, bucket))
  {
    ghost var w0 := Snapshot(disk, store, bucket);
    events := [];
    for i := 0 to |turns|
      invariant Snapshot(disk, store, bucket) == History(formats, w0, events)
      invariant StatementsOf(events) == StatementsIn(turns[..i])
      invariant i > 0 && IsGoodBoot(turns[i - 1]) && OwnNamed(formats, w0) ==>
        BlogsSettled(formats, Snapshot(disk, store, bucket))
    {
      StillTaken(formats, w0, events, Snapshot(disk, store, bucket), turns[i]);
      ghost var more := Take(disk, store, bucket, formats, turns[i]);
      NextTurn(formats, w0, events, more, turns, i);
      events := events + more;
    }
    assert turns[..|turns|] == turns;
    LifeEnds(formats, w0, events, Snapshot(disk, store, bucket));
  }

  lemma StillTaken(formats: Formats, w0: World, events: seq<Event>, w: World, turn: Turn)
    requires InOrder(w0) && CanTake(w0, turn) && w == History(formats, w0, events)
    ensures InOrder(w) && CanTake(w, turn) && (OwnNamed(formats, w0) ==> OwnNamed(formats, w))
  {
    HistoryGrows(formats, w0, events);
    if turn.Boot? { ClearStays(w0, w, turn.plan.ids); }
  }

  lemma NextTurn(formats: Formats, w0: World, events: seq<Event>, more: seq<Event>, turns: seq<Turn>, i: nat)
    requires i < |turns| && StatementsOf(events) == StatementsIn(turns[..i])
    requires StatementsOf(more) == match turns[i] case Boot(_) => [] case Statement(s) => [s]
    ensures History(formats, w0, events + more) == History(formats, History(formats, w0, events), more)
    ensures StatementsOf(events + more) == StatementsIn(turns[..i + 1])
  {
    HistoryAppend(formats, w0, events, more);
    assert turns[..i + 1][..i] == turns[..i];
  }

  lemma LifeEnds(formats: Formats, w0: World, events: seq<Event>, w: World)
    requires WeakInv(formats, w0) && w == History(formats, w0, events)
    ensures WeakInv(formats, w)
    ensures BlogsSettled(formats, w) ==> ManifestsHaveRows(formats, w)
  {
    HistoryKeeps(formats, w0, events);
    if BlogsSettled(formats, w) { SettledManifestsHaveRows(formats, w); }
  }

  /** One turn. */
  method Take(disk: Disk, store: Store, bucket: Bucket, formats: Formats, turn: Turn)
    returns (ghost events: seq<Event>)
    requires InOrder(Snapshot(disk, store, bucket)) && CanTake(Snapshot(disk, store, bucket), turn)
    modifies disk, store, bucket
    ensures Snapshot(disk, store, bucket) == History(formats, old(Snapshot(disk, store, bucket)), events)
    ensures StatementsOf(events) == match turn case Boot(_) => [] case Statement(s) => [s]
    ensures IsGoodBoot(turn) && OwnNamed(formats, old(Snapshot(disk, store, bucket)))
      ==> BlogsSettled(formats, Snapshot(disk, store, bucket))
  {
    ghost var w := Snapshot(disk, store, bucket);
    match turn
    case Boot(plan) =>
      var seeder := new Seeder(disk, store, bucket, formats, plan.outcomes, plan.ids);
      var ok;
      ghost var run;
      ok, run := seeder.Seed();
      events := Seedings(run);
      RunIsHistory(formats, w, run);
    case Statement(s) =>
      Execute(store, s);
      events := [Admin(s)];
      OneStatement(formats, w, s);
  }

  method Execute(store: Store, s: Database.Statement)
    requires !s.InsertPost?
    modifies store
    ensures store.Rows() == Apply(old(store.Rows()), s) && store.origin == old(store.origin)
  {
    match s
    case InsertBlog(p) => var _ := store.CreateBlog(p);
    case RenameBlog(p) => var _ := store.UpdateBlog(p);
    case SoftDeleteBlog(blogId, ownerId) => var _ := store.DeleteBlog(blogId, ownerId);
  }

  // ---- a file with two rows, and a row that is never completed ----

  /** The tree with its one post, beside a fresh database. */
  function FreshWorld(): World {
    ExampleWorld().(db := EmptyDb(map["ann" := 1]))
  }

  const EXAMPLE_JOB := PostJob(
    CreatePostParams(1, 1, Some("hello"), "hello", None, false, None, false, true, true, None), "body")

  /** The seeding of the post, stopped right after its row is in. */
  function Stopped(): Effect {
    PostEffect(EXAMPLE_FILE, ExampleId(), EXAMPLE_JOB, true, 1)
  }

  function OtherId(): string {
    Uniform('b')
  }

  lemma OtherIdIsPublic()
    ensures IsPublicId(OtherId()) && OtherId() != ExampleId()
  {
    UniformIsPublicId('b');
    assert OtherId()[0] != ExampleId()[0];
  }

  lemma FirstStageIsLegal(formats: Formats, w: World, path: Path, id: string, job: PostJob)
    requires IsMd(path) && |path| == 2 && Plan(formats, w, path) == Some(job) && RowAllowed(w.db, job.params)
    requires IsPublicId(id) && id !in w.db.posts && [path[0], id] !in w.dirs
    ensures Legal(formats, w, PostEffect(path, id, job, true, 1))
  {
  }

  lemma ExampleIsMd()
    ensures IsMd(EXAMPLE_FILE)
  {
    assert "hello.md"[5..] == ".md";
  }

  lemma ExampleIsPlanned(w: World)
    requires w == ExampleWorld()
    ensures Plan(ExampleFormats(), w, EXAMPLE_FILE) == Some(EXAMPLE_JOB) && IsLive(w.db, 1) && 1 in w.db.users.Values
    ensures InOrder(w) && w.db.posts == map[] && w.dirs == {["notes"]}
  {
    ExampleBlogIsThere();
    ExampleStart(n => ExampleId());
    assert Holds(w, EXAMPLE_FILE, File(0, "post"));
    ExamplePlan(w);
  }

  lemma ExampleRowIsAllowed(db: Db)
    requires IsLive(db, 1) && 1 in db.users.Values && db.posts == map[]
    ensures RowAllowed(db, EXAMPLE_JOB.params)
  {
    PlainWord("hello");
  }

  /** An identifier that can be drawn for the example's post. */
  ghost predicate Fits(w: World, id: string) {
    IsPublicId(id) && id !in w.db.posts && [EXAMPLE_FILE[0], id] !in w.dirs
  }

  lemma AnyIdFits(w: World, id: string)
    requires w.db.posts == map[] && w.dirs == {["notes"]} && IsPublicId(id)
    ensures Fits(w, id)
  {
    assert [EXAMPLE_FILE[0], id] != ["notes"];
  }

  lemma StoppedIsLegal(w: World)
    requires w == ExampleWorld()
    ensures Legal(ExampleFormats(), w, Stopped())
  {
    ExampleIsPlanned(w);
    ExampleRowIsAllowed(w.db);
    ExampleIdIsPublic();
    AnyIdFits(w, ExampleId());
    ExampleIsMd();
    FirstStageIsLegal(ExampleFormats(), w, EXAMPLE_FILE, ExampleId(), EXAMPLE_JOB);
  }

  lemma StoppedRow(formats: Formats, w: World, e: Effect, later: seq<Effect>)
    requires Inv(formats, w) && Legal(formats, w, e) && e.PostEffect? && e.loose && e.k == 1
    ensures var w' := Replay(formats, w, [e] + later); e.publicId in w'.db.posts && !Shelved(formats, w', e.publicId)
  {
    ReplayAppend(formats, w, [e], later);
    ReplayOne(formats, w, e);
    LaterRowFate(formats, w, e, later, e.publicId);
    StageCompleteIff(formats, w, e);
    PostInOrder(formats, w, e);
    RunInOrder(formats, After(formats, w, e), later);
  }

  /** The row this leaves is never completed, whatever runs follow. */
  lemma RowLeftIncomplete(w: World, later: seq<Effect>)
    requires w == ExampleWorld()
    ensures Inv(ExampleFormats(), w)
    ensures var w' := Replay(ExampleFormats(), w, [Stopped()] + later);
      ExampleId() in w'.db.posts && !Shelved(ExampleFormats(), w', ExampleId())
  {
    ExampleStart(n => ExampleId());
    StoppedIsLegal(w);
    StoppedRow(ExampleFormats(), w, Stopped(), later);
  }

  ghost predicate HasTwoRows(w: World, inode: nat) {
    exists a, b :: a != b && IsLiveRowOf(w, a, inode) && IsLiveRowOf(w, b, inode)
  }

  ghost predicate IsLiveRowOf(w: World, id: string, inode: nat) {
    IsRowOf(w, id, inode) && !w.db.posts[id].deleted
  }

  lemma RemakingGivesTwoRows(formats: Formats, w: World, e: Effect, again: string)
    requires WeakInv(formats, w) && Legal(formats, w, e) && e.PostEffect? && e.loose && e.k == 1
    requires IsPublicId(again) && again !in w.db.posts && again != e.publicId && [e.path[0], again] !in w.dirs
    requires IsInsertable(w.db.blogs[e.job.params.blogId])
    ensures var second := Seeding(SecondEffect(e, again, w.db.nextBlog));
      var events := Remaking(e, w.db.blogs[e.job.params.blogId]) + [second];
      e.path in w.files && HasTwoRows(History(formats, w, events), w.files[e.path].inode)
  {
    var first := Remaking(e, w.db.blogs[e.job.params.blogId]);
    var second := SecondEffect(e, again, w.db.nextBlog);
    SecondRowHappens(formats, w, e, again);
    var w' := RemadeBlog(formats, w, e);
    var events := first + [Seeding(second)];
    assert events[..|events| - 1] == first;
    HistoryKeeps(formats, w, events);
    TwoRowsAfter(formats, w', second, e.publicId);
    var w'' := History(formats, w, events);
    assert RowFiled(formats, w'', e.publicId) && RowFiled(formats, w'', again);
    assert IsLiveRowOf(w'', e.publicId, w.files[e.path].inode) && IsLiveRowOf(w'', again, w.files[e.path].inode);
  }

  lemma TwoRowsAfter(formats: Formats, w: World, e: Effect, earlier: string)
    requires Legal(formats, w, e) && e.PostEffect? && earlier in w.origin && earlier in w.db.posts
    ensures var w' := After(formats, w, e);
      && e.path in w.files && IsRowOf(w', earlier, w.origin[earlier]) && IsRowOf(w', e.publicId, w.files[e.path].inode)
  {
    PostStageFields(formats, w, e);
  }

  const EXAMPLE_ROW := Blog(1, 1, "notes", "notes", None, "public", "open", None, false)

  /** The blog is made, the post's seeding stops after the insert, the blog is deleted and made, and it is seeded. */
  function TwoRowHistory(): seq<Event> {
    [Admin(InsertBlog(EXAMPLE_BLOG))] + TwoSeedings()
  }

  function TwoSeedings(): seq<Event> {
    Remaking(Stopped(), EXAMPLE_ROW) + [Seeding(SecondEffect(Stopped(), OtherId(), 2))]
  }

  lemma ExampleIsInsertable(w: World)
    requires w == ExampleWorld()
    ensures 1 in w.db.blogs && w.db.blogs[1] == EXAMPLE_ROW && w.db.nextBlog == 2 && IsInsertable(EXAMPLE_ROW)
  {
    PlainWord("notes");
    var empty := EmptyDb(map["ann" := 1]);
    assert 1 == empty.users["ann"];
    assert BlogAllowed(empty, EXAMPLE_BLOG);
  }

  lemma FreshIsWeak(w0: World)
    requires w0 == FreshWorld()
    ensures WeakInv(ExampleFormats(), w0)
  {
    ExampleIsPlanned(ExampleWorld());
    assert w0.files == ExampleWorld().files && w0.dirs == ExampleWorld().dirs;
    FreshHistory(ExampleFormats(), w0, map["ann" := 1]);
  }

  /** From a fresh database beside a tree with one post, the post is given two live rows. */
  lemma OneFileTwoRows(w0: World)
    requires w0 == FreshWorld()
    ensures WeakInv(ExampleFormats(), w0)
    ensures HasTwoRows(History(ExampleFormats(), w0, TwoRowHistory()), 0)
  {
    FreshIsWeak(w0);
    OneStatement(ExampleFormats(), w0, InsertBlog(EXAMPLE_BLOG));
    HistoryAppend(ExampleFormats(), w0, [Admin(InsertBlog(EXAMPLE_BLOG))], TwoSeedings());
    TwoSeedingsMakeTwoRows(ExampleFormats(), ExampleWorld());
  }

  lemma TwoSeedingsMakeTwoRows(formats: Formats, w: World)
    requires formats == ExampleFormats() && w == ExampleWorld()
    ensures HasTwoRows(History(formats, w, TwoSeedings()), 0)
  {
    StoppedIsLegal(w);
    ExampleIsInsertable(w);
    ExampleIsWeak(w);
    RemakingGivesTwoRows(formats, w, Stopped(), OtherId());
  }

  lemma ExampleIsWeak(w: World)
    requires w == ExampleWorld()
    ensures WeakInv(ExampleFormats(), w) && Fits(w, OtherId()) && OtherId() != ExampleId()
    ensures EXAMPLE_FILE in w.files && w.files[EXAMPLE_FILE].inode == 0
  {
    ExampleIsPlanned(w);
    OtherIdIsPublic();
    AnyIdFits(w, OtherId());
  }
}
