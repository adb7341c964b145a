/**
 Seeding while blogs are renamed, deleted and created by others. The row a file was made into may then belong to a
 blog that its folder no longer names, and the one-row-per-file rule holds blog by blog.
 */
module Interleaved {
  import opened Prelude
  import opened Slug
  import opened PublicId
  import opened Database
  import opened SeedWorld
  import opened SeedSettled
  import opened BlogSettled
  import opened SeedRun

  datatype Event = Seeding(effect: Effect) | Admin(statement: Statement)

  /** The world after an event; statements on posts are the seeder's alone. */
  ghost function Next(formats: Formats, w: World, e: Event): World {
    match e
    case Seeding(effect) => After(formats, w, effect)
    case Admin(s) => if s.InsertPost? then w else w.(db := Apply(w.db, s))
  }

  ghost function History(formats: Formats, w: World, events: seq<Event>): World {
    if events == [] then w else Next(formats, History(formats, w, events[..|events| - 1]), events[|events| - 1])
  }

  /** The file a row was made from: it says what the row says, and in a post folder it lies under some row's name. */
  ghost predicate IsFileOf(formats: Formats, w: World, id: string, p: Path)
    requires id in w.origin && id in w.db.posts
  {
    && p in w.files && IsMd(p) && (|p| == 2 || (|p| == 3 && p[1] in w.db.posts))
    && w.files[p].inode == w.origin[id]
    && RowSays(formats, w.db.posts[id], w.files[p].text)
  }

  /** The row is its blog's owner's, whatever has become of the blog. */
  ghost predicate Authored(db: Db, row: Post) {
    ByOwner(db, row) && row.authorId in db.users.Values
  }

  ghost predicate RowFiled(formats: Formats, w: World, id: string) {
    && id in w.origin && id in w.db.posts && !w.db.posts[id].deleted && Authored(w.db, w.db.posts[id])
    && exists p :: IsFileOf(formats, w, id, p)
  }

  ghost predicate RowsFiled(formats: Formats, w: World) {
    forall id :: id in w.origin ==> RowFiled(formats, w, id)
  }

  ghost predicate WeakInv(formats: Formats, w: World) {
    InOrder(w) && RowsFiled(formats, w)
  }

  // ---- what every event keeps ----

  lemma FiledCarries(formats: Formats, w: World, w': World, id: string)
    requires RowFiled(formats, w, id) && w'.origin == w.origin && w'.db.posts == w.db.posts
    requires Authored(w'.db, w.db.posts[id])
    requires forall p :: p in w.files && IsMd(p) ==> Holds(w', p, w.files[p])
    ensures RowFiled(formats, w', id)
  {
    var p :| IsFileOf(formats, w, id, p);
    assert IsFileOf(formats, w', id, p);
  }

  /** No statement changes a blog's owner, or takes a user away. */
  lemma StatementKeepsAuthors(db: Db, s: Statement, row: Post)
    requires BlogsIndexed(db) && Authored(db, row)
    ensures Authored(Apply(db, s), row)
  {
  }

  lemma StageKeepsAuthors(w: World, path: Path, job: BlogJob, k: nat, row: Post)
    requires BlogsIndexed(w.db) && path in w.files && path != [] && Authored(w.db, row)
    ensures Authored(BlogStage(w, path, job, k).db, row)
  {
    StatementKeepsAuthors(w.db, InsertBlog(CreateParams(job)), row);
    if FindBlog(w.db, job.slug).Some? {
      StatementKeepsAuthors(w.db, RenameBlog(UpdateParams(job, FindBlog(w.db, job.slug).value.id)), row);
    }
  }

  lemma AdminKeeps(formats: Formats, w: World, s: Statement)
    requires WeakInv(formats, w) && !s.InsertPost?
    ensures WeakInv(formats, w.(db := Apply(w.db, s)))
  {
    ApplyKeepsIndexed(w.db, s);
    AdminKeepsPosts(w.db, s);
    var w' := w.(db := Apply(w.db, s));
    forall id | id in w'.origin ensures RowFiled(formats, w', id) {
      StatementKeepsAuthors(w.db, s, w.db.posts[id]);
      FiledCarries(formats, w, w', id);
    }
  }

  lemma AdminKeepsPosts(db: Db, s: Statement)
    requires !s.InsertPost?
    ensures Apply(db, s).posts == db.posts
  {
  }

  lemma ManifestKeeps(formats: Formats, w: World, e: Effect)
    requires WeakInv(formats, w) && Legal(formats, w, e) && e.BlogEffect?
    ensures WeakInv(formats, After(formats, w, e))
  {
    var w' := After(formats, w, e);
    ManifestIsNoPost(e.path);
    BlogStageIndexed(w, e.path, e.blog, e.k);
    BlogStageTree(w, e.path, e.blog, e.k);
    BlogStageFields(w, e.path, e.blog, e.k);
    PostsUntouched(w, e.path, e.blog, e.k);
    ManifestMovesNoPost(w, w', e.path, e.blog, e.k);
    forall id | id in w'.origin ensures RowFiled(formats, w', id) {
      StageKeepsAuthors(w, e.path, e.blog, e.k, w.db.posts[id]);
      FiledCarries(formats, w, w', id);
    }
  }

  lemma ManifestMovesNoPost(w: World, w': World, path: Path, job: BlogJob, k: nat)
    requires path in w.files && path != [] && !IsMd(path) && IsBlogStage(w, w', path, job, k)
    ensures forall p :: p in w.files && IsMd(p) ==> Holds(w', p, w.files[p])
  {
    HomeIsNoPost(job);
  }

  /** The place of a file after a post's effect: only the seeded file moves. */
  function PlaceOf(e: Effect, p: Path): Path
    requires e.PostEffect? && e.path != []
  {
    if p == e.path then PlaceAfter(e) else p
  }

  lemma PostPlaces(formats: Formats, w: World, e: Effect, p: Path)
    requires TreeOk(w) && Legal(formats, w, e) && e.PostEffect? && p in w.files
    ensures Holds(After(formats, w, e), PlaceOf(e, p), w.files[p])
  {
    PostStageFields(formats, w, e);
    HomeIsFree(formats, w, e);
  }

  /** A row keeps its file while the file keeps its text, and lies loose or under a row's name. */
  lemma FiledMoves(formats: Formats, w: World, w': World, id: string, p: Path, q: Path)
    requires id in w.origin && id in w.db.posts && !w.db.posts[id].deleted && IsFileOf(formats, w, id, p)
    requires id in w'.origin && w'.origin[id] == w.origin[id]
    requires id in w'.db.posts && w'.db.posts[id] == w.db.posts[id]
    requires Authored(w'.db, w.db.posts[id])
    requires Holds(w', q, w.files[p]) && IsMd(q) && (|q| == 2 || (|q| == 3 && q[1] in w'.db.posts))
    ensures RowFiled(formats, w', id)
  {
    assert IsFileOf(formats, w', id, q);
  }

  lemma PlaceIsFiled(formats: Formats, w: World, e: Effect, p: Path)
    requires Legal(formats, w, e) && e.PostEffect? && IsMd(p) && (|p| == 2 || (|p| == 3 && p[1] in w.db.posts))
    ensures var q, posts := PlaceOf(e, p), After(formats, w, e).db.posts;
      IsMd(q) && (|q| == 2 || (|q| == 3 && q[1] in posts))
  {
    PostStageFields(formats, w, e);
    assert HomeOf(e.path, e.publicId)[2] == e.path[|e.path| - 1];
  }

  lemma OldRowFiled(formats: Formats, w: World, e: Effect, id: string)
    requires TreeOk(w) && BlogsIndexed(w.db) && Legal(formats, w, e) && e.PostEffect? && RowFiled(formats, w, id)
    ensures RowFiled(formats, After(formats, w, e), id)
  {
    var p :| IsFileOf(formats, w, id, p);
    PostStageFields(formats, w, e);
    PostPlaces(formats, w, e, p);
    PlaceIsFiled(formats, w, e, p);
    StatementKeepsAuthors(w.db, InsertPost(e.job.params, e.publicId), w.db.posts[id]);
    FiledMoves(formats, w, After(formats, w, e), id, p, PlaceOf(e, p));
  }

  lemma NewRowFiled(formats: Formats, w: World, e: Effect)
    requires TreeOk(w) && BlogsIndexed(w.db) && Legal(formats, w, e) && e.PostEffect?
    ensures RowFiled(formats, After(formats, w, e), e.publicId)
  {
    PostStageFields(formats, w, e);
    PostPlaces(formats, w, e, e.path);
    PlanFacts(formats, w, e.path, e.job);
    PlanSays(formats, w, e.path, e.job, e.publicId);
    if !e.loose { assert PlaceAfter(e) == e.path; }
    assert IsFileOf(formats, After(formats, w, e), e.publicId, PlaceAfter(e));
  }

  lemma PostKeepsWeak(formats: Formats, w: World, e: Effect)
    requires WeakInv(formats, w) && Legal(formats, w, e) && e.PostEffect?
    ensures WeakInv(formats, After(formats, w, e))
  {
    PostStageFields(formats, w, e);
    PostTree(formats, w, e);
    ApplyKeepsIndexed(w.db, InsertPost(e.job.params, e.publicId));
    NewRowFiled(formats, w, e);
    forall id | id in w.origin ensures RowFiled(formats, After(formats, w, e), id) {
      OldRowFiled(formats, w, e, id);
    }
  }

  /** Any tree with a fresh database is a start of such histories. */
  lemma FreshHistory(formats: Formats, w: World, users: map<string, int>)
    requires TreeOk(w) && w.db == EmptyDb(users) && w.origin == map[]
    ensures WeakInv(formats, w)
  {
  }

  lemma {:induction false} HistoryKeeps(formats: Formats, w: World, events: seq<Event>)
    requires WeakInv(formats, w)
    ensures WeakInv(formats, History(formats, w, events))
  {
    if events != [] {
      var init, last := events[..|events| - 1], events[|events| - 1];
      HistoryKeeps(formats, w, init);
      var before := History(formats, w, init);
      match last
      case Admin(s) => if !s.InsertPost? { AdminKeeps(formats, before, s); }
      case Seeding(e) =>
        if Legal(formats, before, e) {
          if e.PostEffect? { PostKeepsWeak(formats, before, e); } else { ManifestKeeps(formats, before, e); }
        }
    }
  }

  // ---- one row a file and blog ----

  /** Two rows of one file are of different blogs, whatever has been renamed, deleted or created in between. */
  lemma OneRowPerBlog(formats: Formats, w: World, events: seq<Event>, a: string, b: string)
    requires WeakInv(formats, w)
    requires var w' := History(formats, w, events);
      a in w'.origin && b in w'.origin && w'.origin[a] == w'.origin[b] && a != b
    ensures var w' := History(formats, w, events);
      a in w'.db.posts && b in w'.db.posts && w'.db.posts[a].blogId != w'.db.posts[b].blogId
  {
    HistoryKeeps(formats, w, events);
    var w' := History(formats, w, events);
    assert RowFiled(formats, w', a) && RowFiled(formats, w', b);
    var p :| IsFileOf(formats, w', a, p);
    var q :| IsFileOf(formats, w', b, q);
    assert p == q;
    SaysSlug(formats, w'.db.posts[a], w'.files[p].text);
    SaysSlug(formats, w'.db.posts[b], w'.files[p].text);
    assert !SameSlot(w'.db.posts[a], w'.db.posts[b]);
  }

  /** No row of the file belongs to this blog. */
  ghost predicate RowsElsewhere(w: World, inode: nat, blogId: int) {
    forall id :: id in w.origin && id in w.db.posts && w.origin[id] == inode ==> w.db.posts[id].blogId != blogId
  }

  /** A post made from another file holds this slug in this blog. */
  ghost predicate HoldsSlot(w: World, inode: nat, blogId: int, slug: Option<string>, id: string) {
    && id in w.db.posts && !(id in w.origin && w.origin[id] == inode)
    && !w.db.posts[id].deleted && w.db.posts[id].blogId == blogId && w.db.posts[id].slug == slug
  }

  ghost predicate HasSlugOf(w: World, id: string, slug: Option<string>) {
    id in w.db.posts && !w.db.posts[id].deleted && w.db.posts[id].slug == slug
  }

  lemma SlotIff(w: World, inode: nat, blogId: int, slug: Option<string>)
    requires slug.Some?
    requires forall id :: id in w.origin && w.origin[id] == inode ==> HasSlugOf(w, id, slug)
    ensures PostSlugFree(w.db.posts, blogId, slug) <==>
      RowsElsewhere(w, inode, blogId) && forall id :: !HoldsSlot(w, inode, blogId, slug, id)
  {
    if PostSlugFree(w.db.posts, blogId, slug) {
      assert forall id :: !HoldsSlot(w, inode, blogId, slug, id);
    }
    if RowsElsewhere(w, inode, blogId) && forall id :: !HoldsSlot(w, inode, blogId, slug, id) {
      forall id | id in w.db.posts && !w.db.posts[id].deleted && w.db.posts[id].blogId == blogId
        ensures w.db.posts[id].slug != slug
      {
        assert !HoldsSlot(w, inode, blogId, slug, id);
      }
    }
  }

  /** Everything but the index on live (blog, slug) pairs. */
  ghost predicate RestAllowed(db: Db, p: CreatePostParams) {
    && p.authorId >= 1 && p.blogId >= 1
    && ValidPost(p.slug, p.title, p.description)
    && IsLive(db, p.blogId)
    && ValidEncryption(p.isEncrypted, p.encryptionIv)
    && p.authorId in db.users.Values
  }

  /** A file that lies in a post folder is never given another row. */
  lemma FolderedFileKeepsRow(formats: Formats, w: World, e: Effect)
    requires WeakInv(formats, w) && Legal(formats, w, e) && e.PostEffect? && HasRow(w, w.files[e.path].inode)
    ensures e.loose
  {
    var id :| id in w.origin && w.origin[id] == w.files[e.path].inode;
    HasFile(formats, w, id, e.path);
  }

  /** A post the seeder could insert for a loose file, were it not for the slug. */
  ghost predicate CouldSeed(formats: Formats, w: World, e: Effect) {
    && e.PostEffect? && e.loose && 0 < e.k <= POST_STAGES
    && e.path in w.files && IsMd(e.path) && |e.path| == 2
    && Plan(formats, w, e.path) == Some(e.job) && RestAllowed(w.db, e.job.params)
    && IsPublicId(e.publicId) && e.publicId !in w.db.posts && [e.path[0], e.publicId] !in w.dirs
  }

  lemma LegalIffSlotFree(formats: Formats, w: World, e: Effect)
    requires CouldSeed(formats, w, e)
    ensures Legal(formats, w, e) <==> PostSlugFree(w.db.posts, e.job.params.blogId, e.job.params.slug)
  {
    assert e.publicId != "";
  }

  /**
   Exactly when a file that has a row is given a second one: only while it is still loose, when its folder's slug
   has come to name a blog that none of its rows belong to, and no other post of that blog has its slug.
   */
  lemma SecondRowIff(formats: Formats, w: World, e: Effect)
    requires WeakInv(formats, w) && CouldSeed(formats, w, e) && HasRow(w, w.files[e.path].inode)
    ensures var inode := w.files[e.path].inode;
      Legal(formats, w, e) <==>
        && RowsElsewhere(w, inode, e.job.params.blogId)
        && forall id :: !HoldsSlot(w, inode, e.job.params.blogId, e.job.params.slug, id)
  {
    PlanFacts(formats, w, e.path, e.job);
    var inode := w.files[e.path].inode;
    forall id | id in w.origin && w.origin[id] == inode ensures HasSlugOf(w, id, e.job.params.slug) {
      HasFile(formats, w, id, e.path);
      SaysSlug(formats, w.db.posts[id], w.files[e.path].text);
    }
    SlotIff(w, inode, e.job.params.blogId, e.job.params.slug);
    LegalIffSlotFree(formats, w, e);
  }

  // ---- it does happen ----

  /** The blog's row again, under a new id. */
  function Recreated(blog: Blog): CreateBlogParams {
    CreateBlogParams(blog.ownerId, blog.slug, blog.title, blog.description,
                     blog.visibility, blog.registrationMode, blog.registrationLimit)
  }

  lemma Recreate(db: Db, id: int)
    requires Indexed(db) && IsLive(db, id) && db.blogs[id].ownerId >= 1 && db.blogs[id].ownerId in db.users.Values
    requires ValidBlog(db.blogs[id].slug, db.blogs[id].title, db.blogs[id].description)
    requires ValidVisibility(db.blogs[id].visibility)
    requires ValidRegistration(db.blogs[id].registrationMode, db.blogs[id].registrationLimit)
    ensures var blog := db.blogs[id];
      var db' := Apply(Apply(db, SoftDeleteBlog(id, blog.ownerId)), InsertBlog(Recreated(blog)));
      && Indexed(db') && db'.posts == db.posts && db'.users == db.users
      && HasSlug(db', db.nextBlog, blog.slug) && db'.blogs[db.nextBlog].ownerId == blog.ownerId
      && db'.blogs[db.nextBlog].id == db.nextBlog
  {
    var blog := db.blogs[id];
    var deleted := Apply(db, SoftDeleteBlog(id, blog.ownerId));
    ApplyKeepsIndexed(db, SoftDeleteBlog(id, blog.ownerId));
    ApplyKeepsIndexed(deleted, InsertBlog(Recreated(blog)));
    assert HasSlug(db, id, blog.slug);
    assert forall i :: HasSlug(deleted, i, blog.slug) ==> HasSlug(db, i, blog.slug) && i != id;
    assert forall i :: i in deleted.blogs ==> !HasSlug(deleted, i, blog.slug);
  }

  /** A blog whose row could be inserted once more. */
  predicate IsInsertable(blog: Blog) {
    && ValidBlog(blog.slug, blog.title, blog.description) && ValidVisibility(blog.visibility)
    && ValidRegistration(blog.registrationMode, blog.registrationLimit)
  }

  /** A seeding effect, and then the blog is deleted and made again. */
  function Remaking(e: Effect, blog: Blog): seq<Event> {
    [Seeding(e), Admin(SoftDeleteBlog(blog.id, blog.ownerId)), Admin(InsertBlog(Recreated(blog)))]
  }

  /** Where the remade blog stands after a first insert for the file. */
  ghost predicate IsRemade(w: World, w': World, e: Effect, blog: Blog)
    requires e.PostEffect? && e.path in w.files && e.path != []
  {
    && Indexed(w'.db) && HasSlug(w'.db, w.db.nextBlog, e.path[0])
    && w'.db.blogs[w.db.nextBlog].ownerId == blog.ownerId && w'.db.blogs[w.db.nextBlog].id == w.db.nextBlog
    && w'.files == w.files && w'.dirs == w.dirs && w'.db.users == w.db.users
    && w'.db.posts.Keys == w.db.posts.Keys + {e.publicId}
    && e.publicId in w'.origin && w'.origin[e.publicId] == w.files[e.path].inode
    && (forall id :: id in w'.db.posts ==> w'.db.posts[id].blogId < w.db.nextBlog)
  }

  lemma RemadeBlog(formats: Formats, w: World, e: Effect) returns (w': World)
    requires Indexed(w.db) && Legal(formats, w, e) && e.PostEffect? && e.loose && e.k == 1
    requires IsInsertable(w.db.blogs[e.job.params.blogId])
    ensures w' == History(formats, w, Remaking(e, w.db.blogs[e.job.params.blogId]))
    ensures e.path in w.files && IsRemade(w, w', e, w.db.blogs[e.job.params.blogId])
  {
    var blog := w.db.blogs[e.job.params.blogId];
    BlogOfPlan(formats, w, e);
    FirstRow(formats, w, e);
    var w1 := After(formats, w, e);
    ThreeEvents(
      formats, w, Seeding(e), Admin(SoftDeleteBlog(blog.id, blog.ownerId)), Admin(InsertBlog(Recreated(blog))));
    Recreate(w1.db, blog.id);
    w' := w1.(db := Apply(Apply(w1.db, SoftDeleteBlog(blog.id, blog.ownerId)), InsertBlog(Recreated(blog))));
  }

  /** The second seeding of the file, for the remade blog. */
  function SecondEffect(e: Effect, again: string, blogId: int): Effect
    requires e.PostEffect?
  {
    PostEffect(e.path, again, e.job.(params := e.job.params.(blogId := blogId)), true, 1)
  }

  /** A run stopped after the insert, its blog deleted and made again: the file may be given another row. */
  lemma SecondRowHappens(formats: Formats, w: World, e: Effect, again: string)
    requires Indexed(w.db) && Legal(formats, w, e) && e.PostEffect? && e.loose && e.k == 1
    requires IsPublicId(again) && again !in w.db.posts && again != e.publicId && [e.path[0], again] !in w.dirs
    requires IsInsertable(w.db.blogs[e.job.params.blogId])
    ensures var w' := History(formats, w, Remaking(e, w.db.blogs[e.job.params.blogId]));
      && e.path in w'.files && HasRow(w', w'.files[e.path].inode)
      && Legal(formats, w', SecondEffect(e, again, w.db.nextBlog))
  {
    BlogOfPlan(formats, w, e);
    var w' := RemadeBlog(formats, w, e);
    SecondIsLegal(formats, w, w', e, again, w.db.blogs[e.job.params.blogId]);
  }

  /** What a run stopped right after the insert leaves behind. */
  lemma FirstRow(formats: Formats, w: World, e: Effect)
    requires Indexed(w.db) && Legal(formats, w, e) && e.PostEffect? && e.loose && e.k == 1
    ensures var w1 := After(formats, w, e);
      && Indexed(w1.db) && w1.files == w.files && w1.dirs == w.dirs
      && w1.db.blogs == w.db.blogs && w1.db.users == w.db.users && w1.db.nextBlog == w.db.nextBlog
      && w1.db.posts.Keys == w.db.posts.Keys + {e.publicId}
      && e.publicId in w1.origin && w1.origin[e.publicId] == w.files[e.path].inode
      && (forall id :: id in w1.db.posts ==> w1.db.posts[id].blogId < w.db.nextBlog)
  {
    PostStageFields(formats, w, e);
    ApplyKeepsIndexed(w.db, InsertPost(e.job.params, e.publicId));
    PostsBelowNext(After(formats, w, e).db);
  }

  lemma BlogOfPlan(formats: Formats, w: World, e: Effect)
    requires BlogsIndexed(w.db) && Legal(formats, w, e) && e.PostEffect?
    ensures e.path in w.files && HasSlug(w.db, e.job.params.blogId, e.path[0])
    ensures var blog := w.db.blogs[e.job.params.blogId];
      blog.id == e.job.params.blogId && blog.ownerId == e.job.params.authorId
  {
    PlanFacts(formats, w, e.path, e.job);
    FindBlogUnique(w.db, e.job.params.blogId, e.path[0]);
  }

  lemma PostsBelowNext(db: Db)
    requires Indexed(db)
    ensures forall id :: id in db.posts ==> db.posts[id].blogId < db.nextBlog
  {
    forall id | id in db.posts ensures db.posts[id].blogId < db.nextBlog {
      assert PostRowOk(db.blogs, id, db.posts[id]);
    }
  }

  lemma SecondIsLegal(formats: Formats, w: World, w': World, e: Effect, again: string, blog: Blog)
    requires BlogsIndexed(w.db) && Legal(formats, w, e) && e.PostEffect? && e.loose && e.path in w.files
    requires HasSlug(w.db, blog.id, e.path[0])
    requires w.db.blogs[blog.id] == blog && e.job.params.blogId == blog.id
    requires IsRemade(w, w', e, blog)
    requires IsPublicId(again) && again !in w'.db.posts && [e.path[0], again] !in w.dirs
    ensures HasRow(w', w'.files[e.path].inode)
    ensures Legal(formats, w', SecondEffect(e, again, w.db.nextBlog))
  {
    FindBlogUnique(w.db, blog.id, e.path[0]);
    FindBlogUnique(w'.db, w.db.nextBlog, e.path[0]);
    assert Plan(formats, w', e.path) == Some(SecondEffect(e, again, w.db.nextBlog).job);
  }

  lemma ThreeEvents(formats: Formats, w: World, a: Event, b: Event, c: Event)
    ensures History(formats, w, [a, b, c]) == Next(formats, Next(formats, Next(formats, w, a), b), c)
  {
    assert [a, b, c][..2] == [a, b] && [a, b][..1] == [a] && [a][..0] == [];
    assert History(formats, w, [a]) == Next(formats, w, a);
    assert History(formats, w, [a, b]) == Next(formats, Next(formats, w, a), b);
  }

  lemma HasFile(formats: Formats, w: World, id: string, p: Path)
    requires WeakInv(formats, w) && id in w.origin && p in w.files && w.files[p].inode == w.origin[id]
    ensures id in w.db.posts && !w.db.posts[id].deleted && IsFileOf(formats, w, id, p)
  {
    assert RowFiled(formats, w, id);
    var q :| IsFileOf(formats, w, id, q);
    assert q == p;
  }
}
