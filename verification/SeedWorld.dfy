/**
 What a seeding run works on (internal/seeder): the source tree, the database rows and the bucket, as one value,
 and the effect of seeding one manifest or one post as a sequence of stages a run may stop between.
 */
module SeedWorld {
  import opened Prelude
  import opened Slug
  import opened PublicId
  import opened Database

  /** Path components below the source directory. */
  type Path = seq<string>

  /** A regular file: moving it keeps the inode. */
  datatype File = File(inode: nat, text: string)

  /** `origin` says from which file (by inode) the seeder made each row. */
  datatype World = World(
    files: map<Path, File>, dirs: set<Path>, db: Db, origin: map<string, nat>, bucket: map<string, string>)

  // ---- formats: YAML, frontmatter and dates are parsed by foreign code ----

  datatype Manifest = Manifest(
    title: string, description: string, visibility: string, registrationMode: string,
    registrationLimit: Option<int>, owner: string)

  datatype Frontmatter = Frontmatter(
    title: string, description: string, slug: string, isListed: bool, publishedAt: Option<string>,
    requiresAuth: bool, allowComments: bool)

  datatype Formats = Formats(
    yaml: string -> Option<Manifest>,
    frontmatter: string -> Option<(Frontmatter, string)>,
    rfc3339: string -> Option<int>,
    date: string -> Option<int>)

  /** ParseBlogManifest on the text of a file. */
  function ParseManifest(formats: Formats, text: string): Option<Manifest> {
    match formats.yaml(text)
    case None => None
    case Some(m) =>
      if m.title == "" || m.owner == "" then None
      else Some(m.(visibility := if m.visibility == "" then "public" else m.visibility,
                   registrationMode := if m.registrationMode == "" then "open" else m.registrationMode))
  }

  /** ParsePostFile on the text of a file: the frontmatter and the body. */
  function ParsePost(formats: Formats, text: string): Option<(Frontmatter, string)> {
    match formats.frontmatter(text)
    case None => None
    case Some(parsed) => if parsed.0.title == "" then None else Some(parsed)
  }

  function ParseDate(formats: Formats, text: string): Option<int> {
    if formats.rfc3339(text).Some? then formats.rfc3339(text) else formats.date(text)
  }

  function PostSlug(fm: Frontmatter): string {
    if fm.slug != "" then fm.slug else Slugify(fm.title)
  }

  // ---- the tree ----

  predicate IsMd(p: Path) {
    p != [] && EndsWith(p[|p| - 1], ".md")
  }

  function Parent(p: Path): Path
    requires p != []
  {
    p[..|p| - 1]
  }

  function MakeDir(w: World, p: Path): World
    requires p != []
  {
    w.(dirs := w.dirs + {p[..1], p})
  }

  function Move(w: World, p: Path, q: Path): World
    requires p in w.files
  {
    w.(files := (w.files - {p})[q := w.files[p]])
  }

  ghost predicate TreeOk(w: World) {
    && (forall p :: p in w.files ==> p != [] && (|p| >= 2 ==> Parent(p) in w.dirs))
    && (forall p, q :: p in w.files && q in w.files && w.files[p].inode == w.files[q].inode ==> p == q)
  }

  // ---- seeding one post ----

  /** What seedPost takes from a file: the row to insert and the body to upload. */
  datatype PostJob = PostJob(params: CreatePostParams, body: string)

  ghost function PostPlan(formats: Formats, db: Db, blogSlug: string, text: string): Option<PostJob> {
    match ParsePost(formats, text)
    case None => None
    case Some(parsed) =>
      var fm := parsed.0;
      if !ValidSlug(blogSlug) then None
      else match FindBlog(db, blogSlug)
        case None => None
        case Some(blog) =>
          var publishedAt := if fm.publishedAt.None? then None else ParseDate(formats, fm.publishedAt.value);
          if fm.publishedAt.Some? && publishedAt.None? then None
          else Some(PostJob(
            CreatePostParams(
              blog.id, blog.ownerId, Some(PostSlug(fm)), fm.title,
              if fm.description != "" then Some(fm.description) else None,
              false, None, fm.requiresAuth, fm.isListed, fm.allowComments, publishedAt),
            parsed.1))
  }

  ghost function Plan(formats: Formats, w: World, path: Path): Option<PostJob>
    requires path != []
  {
    if path in w.files then PostPlan(formats, w.db, path[0], w.files[path].text) else None
  }

  const POST_STAGES := 4

  function Inserted(w: World, inode: nat, params: CreatePostParams, publicId: string): World {
    w.(db := Apply(w.db, InsertPost(params, publicId)), origin := w.origin[publicId := inode])
  }

  function Uploaded(w: World, key: string, body: string): World {
    w.(bucket := w.bucket[key := body])
  }

  /**
   The world after the first k effects of seeding a file: insert the row, and then, for a loose file, make the
   post folder and move the file into it; last, upload the body.
   */
  ghost function PostStage(w: World, path: Path, publicId: string, job: PostJob, loose: bool, k: nat): World
    requires path in w.files && |path| >= 2 && IsLive(w.db, job.params.blogId)
  {
    var folder := [path[0], publicId];
    var w1 := if k < 1 then w else Inserted(w, w.files[path].inode, job.params, publicId);
    var w2 := if k < 2 || !loose then w1 else MakeDir(w1, folder);
    var w3 := if k < 3 || !loose then w2 else Move(w2, path, folder + [path[|path| - 1]]);
    if k < 4 then w3 else Uploaded(w3, NewPost(w.db, job.params, publicId).s3Key, job.body)
  }

  /** A file the seeder leaves alone whatever identifier it is given: unreadable, no blog, or a row not allowed. */
  ghost predicate Refused(formats: Formats, w: World, path: Path)
    requires path != []
  {
    var plan := Plan(formats, w, path);
    plan.None? || !RowAllowed(w.db, plan.value.params)
  }

  // ---- seeding one manifest ----

  datatype BlogJob = BlogJob(ownerId: int, slug: string, manifest: Manifest)

  function BlogPlan(formats: Formats, w: World, path: Path): Option<BlogJob> {
    if path !in w.files then None
    else match ParseManifest(formats, w.files[path].text)
      case None => None
      case Some(m) =>
        if m.owner !in w.db.users || !ValidSlug(Slugify(m.title)) then None
        else Some(BlogJob(w.db.users[m.owner], Slugify(m.title), m))
  }

  function CreateParams(job: BlogJob): CreateBlogParams {
    var m := job.manifest;
    CreateBlogParams(
      job.ownerId, job.slug, m.title, Some(m.description), m.visibility, m.registrationMode, m.registrationLimit)
  }

  function UpdateParams(job: BlogJob, blogId: int): UpdateBlogParams {
    UpdateBlogParams(blogId, job.ownerId, job.slug, job.manifest.title, Some(job.manifest.description))
  }

  function Home(job: BlogJob): Path {
    [job.slug, "blog.yml"]
  }

  const BLOG_STAGES := 3

  /**
   The world after the first k effects of seeding a manifest. For a blog that exists: update the row, then make
   the folder and move the manifest in unless it is there. For a new one: make the folder, move the manifest,
   and only then insert the row.
   */
  ghost function BlogStage(w: World, path: Path, job: BlogJob, k: nat): World
    requires path in w.files && path != []
  {
    match FindBlog(w.db, job.slug)
    case Some(blog) =>
      if !UpdateAllowed(w.db, UpdateParams(job, blog.id)) then w
      else
        var elsewhere := Parent(path) != [job.slug];
        var w1 := if k < 1 then w else w.(db := Apply(w.db, RenameBlog(UpdateParams(job, blog.id))));
        var w2 := if k < 2 || !elsewhere then w1 else MakeDir(w1, [job.slug]);
        if k < 3 || !elsewhere then w2 else Move(w2, path, Home(job))
    case None =>
      var w1 := if k < 1 then w else MakeDir(w, [job.slug]);
      var w2 := if k < 2 then w1 else Move(w1, path, Home(job));
      if k < 3 then w2 else w2.(db := Apply(w2.db, InsertBlog(CreateParams(job))))
  }

  // ---- what every stage keeps ----

  /** The moment a date of the front matter stands for: a timestamp, or a day. */
  ghost predicate IsDate(formats: Formats, text: string, at: int) {
    formats.rfc3339(text) == Some(at) || (formats.rfc3339(text).None? && formats.date(text) == Some(at))
  }

  /** The row says what the front matter of this text does: its flags, its words, and a date exactly if it has one. */
  ghost predicate RowSays(formats: Formats, row: Post, text: string) {
    formats.frontmatter(text).Some? &&
      var fm := formats.frontmatter(text).value.0;
      && row.title == fm.title != ""
      && row.isListed == fm.isListed && row.requiresAuth == fm.requiresAuth && row.allowComments == fm.allowComments
      && !row.isEncrypted && row.encryptionIv.None?
      && row.slug == Some(if fm.slug == "" then Slugify(fm.title) else fm.slug)
      && row.description == (if fm.description == "" then None else Some(fm.description))
      && (fm.publishedAt.None? ==> row.publishedAt.None?)
      && (fm.publishedAt.Some? ==>
            row.publishedAt.Some? && IsDate(formats, fm.publishedAt.value, row.publishedAt.value))
  }

  /** The row is its blog's owner's. */
  ghost predicate ByOwner(db: Db, row: Post) {
    row.blogId in db.blogs && row.authorId == db.blogs[row.blogId].ownerId
  }

  /** The row was made from this file: it is one of the file's blog, by its owner, and says what the file does. */
  ghost predicate MadeFrom(formats: Formats, w: World, publicId: string, p: Path)
    requires publicId in w.db.posts && p in w.files
  {
    var row := w.db.posts[publicId];
    && |p| >= 2
    && HasSlug(w.db, row.blogId, p[0]) && ByOwner(w.db, row)
    && RowSays(formats, row, w.files[p].text)
  }

  ghost predicate OriginsOk(formats: Formats, w: World) {
    && (forall id :: id in w.origin ==> id in w.db.posts && !w.db.posts[id].deleted && w.db.posts[id].slug.Some?)
    && (forall id, p :: id in w.origin && p in w.files && IsMd(p) && w.files[p].inode == w.origin[id]
          ==> MadeFrom(formats, w, id, p))
    // no file has two rows
    && (forall a, b :: a in w.origin && b in w.origin && w.origin[a] == w.origin[b] ==> a == b)
  }

  /** What a start needs of the tree and the rows. */
  ghost predicate InOrder(w: World) {
    TreeOk(w) && Indexed(w.db)
  }

  ghost predicate Inv(formats: Formats, w: World) {
    InOrder(w) && OriginsOk(formats, w)
  }

  /** Any tree with a fresh database is a start. */
  lemma FreshStart(formats: Formats, w: World, users: map<string, int>)
    requires TreeOk(w) && w.db == EmptyDb(users) && w.origin == map[]
    ensures Inv(formats, w)
  {
  }

  /** The file of a loose path now lies in the folder of a row made from it. */
  ghost predicate Adopted(w: World, p: Path, f: File)
    requires |p| == 2
  {
    exists id :: id in w.origin && w.origin[id] == f.inode && Holds(w, [p[0], id, p[1]], f)
  }

  ghost predicate Holds(w: World, p: Path, f: File) {
    p in w.files && w.files[p] == f
  }

  ghost predicate StillThere(w: World, p: Path, f: File) {
    Holds(w, p, f) || (|p| == 2 && Adopted(w, p, f))
  }

  ghost predicate CameFrom(w: World, f: File) {
    exists p :: p in w.files && IsMd(p) && w.files[p] == f
  }

  /** No post file is lost, changed or duplicated: each is where it was, or in its row's folder. */
  ghost predicate FilesKept(w: World, w': World) {
    && (forall p :: p in w.files && IsMd(p) ==> StillThere(w', p, w.files[p]))
    && (forall q :: q in w'.files && IsMd(q) ==> CameFrom(w, w'.files[q]))
  }

  ghost predicate RowsKept(w: World, w': World) {
    && w.db.users == w'.db.users
    && (forall id :: id in w.db.blogs ==> id in w'.db.blogs && SameBlog(w.db.blogs[id], w'.db.blogs[id]))
    && (forall id :: id in w.db.posts ==> id in w'.db.posts && w'.db.posts[id] == w.db.posts[id])
    && (forall id :: id in w.origin ==> id in w'.origin && w'.origin[id] == w.origin[id])
    // every row that is added is recorded with its file
    && (forall id :: id in w'.db.posts && id !in w.db.posts ==> id in w'.origin)
  }

  ghost predicate SameBlog(b: Blog, c: Blog) {
    b.id == c.id && b.slug == c.slug && b.ownerId == c.ownerId && b.deleted == c.deleted
  }

  /** Folders are never removed, and every new post folder is the folder of a row. */
  ghost predicate FoldersKept(w: World, w': World) {
    && w.dirs <= w'.dirs
    && (forall p :: p in w'.dirs && |p| == 2 ==> p in w.dirs || p[1] in w'.db.posts)
  }

  ghost predicate Evolves(w: World, w': World) {
    FilesKept(w, w') && RowsKept(w, w') && FoldersKept(w, w')
  }

  lemma EvolvesRefl(w: World)
    ensures Evolves(w, w)
  {
    forall q | q in w.files && IsMd(q) ensures CameFrom(w, w.files[q]) {
    }
  }

  lemma FilesKeptTrans(a: World, b: World, c: World)
    requires FilesKept(a, b) && FilesKept(b, c) && RowsKept(b, c)
    ensures FilesKept(a, c)
  {
    forall p | p in a.files && IsMd(p) ensures StillThere(c, p, a.files[p]) {
      var f := a.files[p];
      assert StillThere(b, p, f);
      if Holds(b, p, f) {
        assert StillThere(c, p, f);
      } else {
        var id :| id in b.origin && b.origin[id] == f.inode && Holds(b, [p[0], id, p[1]], f);
        assert IsMd([p[0], id, p[1]]);
        assert StillThere(c, [p[0], id, p[1]], f);
        assert Adopted(c, p, f);
      }
    }
    forall q | q in c.files && IsMd(q) ensures CameFrom(a, c.files[q]) {
      assert CameFrom(b, c.files[q]);
      var p :| p in b.files && IsMd(p) && b.files[p] == c.files[q];
      assert CameFrom(a, b.files[p]);
    }
  }

  lemma EvolvesTrans(a: World, b: World, c: World)
    requires Evolves(a, b) && Evolves(b, c)
    ensures Evolves(a, c)
  {
    FilesKeptTrans(a, b, c);
  }

  // ---- the stages of a post keep the invariant ----

  /** What seedPost has made sure of when it starts inserting. */
  ghost predicate PostReady(formats: Formats, w: World, path: Path, publicId: string, job: PostJob, loose: bool) {
    && IsMd(path)
    && |path| == (if loose then 2 else 3)
    && Plan(formats, w, path) == Some(job)
    && PostAllowed(w.db, job.params, publicId)
    && (if loose then [path[0], publicId] !in w.dirs else path[1] == publicId)
  }

  lemma PlanFacts(formats: Formats, w: World, path: Path, job: PostJob)
    requires BlogsIndexed(w.db) && path != [] && Plan(formats, w, path) == Some(job)
    ensures path in w.files && HasSlug(w.db, job.params.blogId, path[0])
    ensures ParsePost(formats, w.files[path].text).Some?
    ensures job.params.slug == Some(PostSlug(ParsePost(formats, w.files[path].text).value.0))
    ensures job.body == ParsePost(formats, w.files[path].text).value.1
  {
  }

  /** The row a plan asks for says what the file does, whatever identifier it is given. */
  lemma PlanSays(formats: Formats, w: World, path: Path, job: PostJob, publicId: string)
    requires BlogsIndexed(w.db) && path != [] && Plan(formats, w, path) == Some(job)
    ensures path in w.files && IsLive(w.db, job.params.blogId)
    ensures RowSays(formats, NewPost(w.db, job.params, publicId), w.files[path].text)
    ensures ByOwner(w.db, NewPost(w.db, job.params, publicId))
  {
    FindBlogUnique(w.db, job.params.blogId, path[0]);
  }

  lemma SaysSlug(formats: Formats, row: Post, text: string)
    requires RowSays(formats, row, text)
    ensures ParsePost(formats, text).Some? && row.slug == Some(PostSlug(ParsePost(formats, text).value.0))
  {
  }

  lemma SameFilesKept(w: World, w': World)
    requires w'.files == w.files
    ensures FilesKept(w, w')
  {
    forall q | q in w.files && IsMd(q)
      ensures StillThere(w', q, w.files[q]) && CameFrom(w, w'.files[q])
    {
      assert Holds(w', q, w.files[q]);
    }
  }

  /** Rows made from files stay so while the post files stay put and the rows are kept. */
  lemma OriginsCarry(formats: Formats, w: World, w': World)
    requires OriginsOk(formats, w) && RowsKept(w, w') && w'.origin == w.origin
    requires forall q :: q in w'.files && IsMd(q) ==> Holds(w, q, w'.files[q])
    ensures OriginsOk(formats, w')
  {
    forall id, q | id in w'.origin && q in w'.files && IsMd(q) && w'.files[q].inode == w'.origin[id]
      ensures MadeFrom(formats, w', id, q)
    {
      assert Holds(w, q, w'.files[q]) && MadeFrom(formats, w, id, q);
    }
  }

  /** The live (blog, slug) index is what stops a second row for a file that has one. */
  lemma NoSecondRow(formats: Formats, w: World, path: Path, job: PostJob, id: string)
    requires Inv(formats, w) && IsMd(path) && Plan(formats, w, path) == Some(job)
    requires id in w.origin && w.origin[id] == w.files[path].inode
    ensures !RowAllowed(w.db, job.params)
  {
    PlanFacts(formats, w, path, job);
    assert MadeFrom(formats, w, id, path);
    SaysSlug(formats, w.db.posts[id], w.files[path].text);
    assert HasSlug(w.db, w.db.posts[id].blogId, path[0]);
  }

  lemma NoOtherRow(formats: Formats, w: World, path: Path, job: PostJob)
    requires Inv(formats, w) && IsMd(path)
    requires Plan(formats, w, path) == Some(job) && RowAllowed(w.db, job.params)
    ensures forall a :: a in w.origin ==> w.origin[a] != w.files[path].inode
  {
    forall a | a in w.origin ensures w.origin[a] != w.files[path].inode {
      if w.origin[a] == w.files[path].inode {
        NoSecondRow(formats, w, path, job, a);
      }
    }
  }

  /** The new row is made from its file; files have one inode each. */
  lemma InsertMakes(formats: Formats, w: World, path: Path, publicId: string, job: PostJob, p: Path)
    requires Inv(formats, w) && IsMd(path) && |path| >= 2
    requires Plan(formats, w, path) == Some(job) && PostAllowed(w.db, job.params, publicId)
    requires p in w.files && w.files[p].inode == w.files[path].inode
    ensures MadeFrom(formats, Inserted(w, w.files[path].inode, job.params, publicId), publicId, p)
  {
    PlanFacts(formats, w, path, job);
    PlanSays(formats, w, path, job, publicId);
  }

  lemma InsertKeepsMade(
      formats: Formats, w: World, inode: nat, params: CreatePostParams, publicId: string, id: string, p: Path)
    requires id in w.db.posts && id != publicId && p in w.files && MadeFrom(formats, w, id, p)
    ensures id in Inserted(w, inode, params, publicId).db.posts
    ensures MadeFrom(formats, Inserted(w, inode, params, publicId), id, p)
  {
  }

  lemma InsertKeepsOrigins(formats: Formats, w: World, path: Path, publicId: string, job: PostJob)
    requires Inv(formats, w) && IsMd(path) && |path| >= 2
    requires Plan(formats, w, path) == Some(job) && PostAllowed(w.db, job.params, publicId)
    ensures OriginsOk(formats, Inserted(w, w.files[path].inode, job.params, publicId))
  {
    var inode := w.files[path].inode;
    var w' := Inserted(w, inode, job.params, publicId);
    InsertKeepsLive(formats, w, path, publicId, job);
    forall id, p | id in w'.origin && p in w'.files && IsMd(p) && w'.files[p].inode == w'.origin[id]
      ensures MadeFrom(formats, w', id, p)
    {
      if id != publicId {
        InsertKeepsMade(formats, w, inode, job.params, publicId, id, p);
      } else {
        InsertMakes(formats, w, path, publicId, job, p);
      }
    }
  }

  lemma InsertKeepsLive(formats: Formats, w: World, path: Path, publicId: string, job: PostJob)
    requires Inv(formats, w) && IsMd(path)
    requires Plan(formats, w, path) == Some(job) && PostAllowed(w.db, job.params, publicId)
    ensures var w' := Inserted(w, w.files[path].inode, job.params, publicId);
      && (forall id :: id in w'.origin ==> id in w'.db.posts && !w'.db.posts[id].deleted && w'.db.posts[id].slug.Some?)
      && (forall a, b :: a in w'.origin && b in w'.origin && w'.origin[a] == w'.origin[b] ==> a == b)
  {
    PlanFacts(formats, w, path, job);
    InsertIsLive(formats, w, w.files[path].inode, job.params, publicId);
    NoOtherRow(formats, w, path, job);
  }

  lemma InsertIsLive(formats: Formats, w: World, inode: nat, params: CreatePostParams, publicId: string)
    requires OriginsOk(formats, w) && PostAllowed(w.db, params, publicId) && params.slug.Some?
    ensures var w' := Inserted(w, inode, params, publicId);
      forall id :: id in w'.origin ==> id in w'.db.posts && !w'.db.posts[id].deleted && w'.db.posts[id].slug.Some?
  {
  }

  lemma InsertKeepsRows(w: World, inode: nat, params: CreatePostParams, publicId: string)
    requires PostAllowed(w.db, params, publicId) && publicId !in w.origin
    ensures RowsKept(w, Inserted(w, inode, params, publicId))
    ensures FoldersKept(w, Inserted(w, inode, params, publicId))
  {
  }

  lemma InsertKeeps(formats: Formats, w: World, path: Path, publicId: string, job: PostJob)
    requires Inv(formats, w) && IsMd(path) && |path| >= 2
    requires Plan(formats, w, path) == Some(job) && PostAllowed(w.db, job.params, publicId)
    ensures var w' := Inserted(w, w.files[path].inode, job.params, publicId); Inv(formats, w') && Evolves(w, w')
  {
    var w' := Inserted(w, w.files[path].inode, job.params, publicId);
    InsertKeepsOrigins(formats, w, path, publicId, job);
    InsertKeepsRows(w, w.files[path].inode, job.params, publicId);
    SameFilesKept(w, w');
    ApplyKeepsIndexed(w.db, InsertPost(job.params, publicId));
  }

  lemma MakeDirKeeps(formats: Formats, w: World, p: Path)
    requires Inv(formats, w) && (|p| == 1 || (|p| == 2 && p[1] in w.db.posts))
    ensures Inv(formats, MakeDir(w, p)) && Evolves(w, MakeDir(w, p))
  {
    SameFilesKept(w, MakeDir(w, p));
    OriginsCarry(formats, w, MakeDir(w, p));
  }

  ghost predicate CanAdopt(w: World, path: Path, id: string) {
    && path in w.files && IsMd(path) && |path| == 2
    && id in w.origin && w.origin[id] == w.files[path].inode
    && [path[0], id] in w.dirs && [path[0], id, path[1]] !in w.files
  }

  lemma AdoptKeepsFiles(w: World, path: Path, id: string)
    requires CanAdopt(w, path, id)
    ensures FilesKept(w, Move(w, path, [path[0], id, path[1]]))
  {
    var q := [path[0], id, path[1]];
    var w' := Move(w, path, q);
    forall p | p in w.files && IsMd(p) ensures StillThere(w', p, w.files[p]) {
      if p == path {
        assert Holds(w', q, w.files[p]);
        assert Adopted(w', p, w.files[p]);
      } else {
        assert Holds(w', p, w.files[p]);
      }
    }
    forall p | p in w'.files && IsMd(p) ensures CameFrom(w, w'.files[p]) {
      assert w.files[if p == q then path else p] == w'.files[p];
    }
  }

  /** Moving a loose file into its row's folder. */
  lemma AdoptKeeps(formats: Formats, w: World, path: Path, id: string)
    requires Inv(formats, w) && CanAdopt(w, path, id)
    ensures var w' := Move(w, path, [path[0], id, path[1]]); Inv(formats, w') && Evolves(w, w')
  {
    AdoptKeepsFiles(w, path, id);
    AdoptKeepsOrigins(formats, w, path, id);
    AdoptKeepsTree(w, path, id);
  }

  lemma AdoptKeepsTree(w: World, path: Path, id: string)
    requires TreeOk(w) && CanAdopt(w, path, id)
    ensures TreeOk(Move(w, path, [path[0], id, path[1]]))
  {
    assert Parent([path[0], id, path[1]]) == [path[0], id];
  }

  lemma AdoptKeepsOrigins(formats: Formats, w: World, path: Path, id: string)
    requires Inv(formats, w) && CanAdopt(w, path, id)
    ensures OriginsOk(formats, Move(w, path, [path[0], id, path[1]]))
  {
    var q := [path[0], id, path[1]];
    var w' := Move(w, path, q);
    forall i, p | i in w'.origin && p in w'.files && IsMd(p) && w'.files[p].inode == w'.origin[i]
      ensures MadeFrom(formats, w', i, p)
    {
      assert MadeFrom(formats, w, i, if p == q then path else p);
    }
  }

  lemma UploadKeeps(formats: Formats, w: World, key: string, body: string)
    requires Inv(formats, w)
    ensures Inv(formats, Uploaded(w, key, body)) && Evolves(w, Uploaded(w, key, body))
  {
    SameFilesKept(w, Uploaded(w, key, body));
    OriginsCarry(formats, w, Uploaded(w, key, body));
  }

  /** Making the post folder and moving the loose file there. */
  lemma ShelveKeeps(formats: Formats, w: World, path: Path, id: string)
    requires Inv(formats, w) && path in w.files && IsMd(path) && |path| == 2
    requires id in w.origin && w.origin[id] == w.files[path].inode && [path[0], id] !in w.dirs
    ensures var w2 := MakeDir(w, [path[0], id]);
      && Inv(formats, w2) && Evolves(w, w2)
      && Inv(formats, Move(w2, path, [path[0], id, path[1]]))
      && Evolves(w, Move(w2, path, [path[0], id, path[1]]))
  {
    var w2 := MakeDir(w, [path[0], id]);
    var q := [path[0], id, path[1]];
    assert Parent(q) == [path[0], id];
    MakeDirKeeps(formats, w, [path[0], id]);
    AdoptKeeps(formats, w2, path, id);
    EvolvesTrans(w, w2, Move(w2, path, q));
  }

  lemma StageShape(w: World, path: Path, publicId: string, job: PostJob, loose: bool, k: nat)
    requires path in w.files && |path| == (if loose then 2 else 3) && IsLive(w.db, job.params.blogId)
    requires 0 < k < POST_STAGES
    ensures PostStage(w, path, publicId, job, loose, k) ==
      var w1 := Inserted(w, w.files[path].inode, job.params, publicId);
      if k == 1 || !loose then w1
      else
        var w2 := MakeDir(w1, [path[0], publicId]);
        if k == 2 then w2 else Move(w2, path, [path[0], publicId, path[1]])
  {
    assert loose ==> [path[0], publicId] + [path[|path| - 1]] == [path[0], publicId, path[1]];
  }

  lemma EarlyStageKeeps(formats: Formats, w: World, path: Path, publicId: string, job: PostJob, loose: bool, k: nat)
    requires Inv(formats, w) && PostReady(formats, w, path, publicId, job, loose) && 0 < k < POST_STAGES
    ensures var w' := PostStage(w, path, publicId, job, loose, k); Inv(formats, w') && Evolves(w, w')
  {
    var w1 := Inserted(w, w.files[path].inode, job.params, publicId);
    StageShape(w, path, publicId, job, loose, k);
    InsertKeeps(formats, w, path, publicId, job);
    if k > 1 && loose {
      ShelveKeeps(formats, w1, path, publicId);
      var w2 := MakeDir(w1, [path[0], publicId]);
      EvolvesTrans(w, w1, if k == 2 then w2 else Move(w2, path, [path[0], publicId, path[1]]));
    }
  }

  /** Wherever seedPost stops, the invariant holds and no post file is lost. */
  lemma PostStageKeeps(formats: Formats, w: World, path: Path, publicId: string, job: PostJob, loose: bool, k: nat)
    requires Inv(formats, w) && PostReady(formats, w, path, publicId, job, loose) && k <= POST_STAGES
    ensures var w' := PostStage(w, path, publicId, job, loose, k); Inv(formats, w') && Evolves(w, w')
  {
    if k == 0 {
      EvolvesRefl(w);
    } else if k < POST_STAGES {
      EarlyStageKeeps(formats, w, path, publicId, job, loose, k);
    } else {
      EarlyStageKeeps(formats, w, path, publicId, job, loose, 3);
      var w3 := PostStage(w, path, publicId, job, loose, 3);
      UploadKeeps(formats, w3, NewPost(w.db, job.params, publicId).s3Key, job.body);
      EvolvesTrans(w, w3, PostStage(w, path, publicId, job, loose, 4));
    }
  }

  // ---- the stages of a manifest keep it too ----

  lemma BlogRowsKeep(formats: Formats, w: World, s: Statement)
    requires Inv(formats, w)
    requires s.InsertBlog? || (s.RenameBlog? && HasSlug(w.db, s.update.blogId, s.update.slug))
    ensures var w' := w.(db := Apply(w.db, s)); Inv(formats, w') && Evolves(w, w')
  {
    var w' := w.(db := Apply(w.db, s));
    ApplyKeepsIndexed(w.db, s);
    BlogRowsKept(w, s);
    OriginsCarry(formats, w, w');
    SameFilesKept(w, w');
  }

  lemma BlogRowsKept(w: World, s: Statement)
    requires BlogsIndexed(w.db)
    requires s.InsertBlog? || (s.RenameBlog? && HasSlug(w.db, s.update.blogId, s.update.slug))
    ensures RowsKept(w, w.(db := Apply(w.db, s))) && FoldersKept(w, w.(db := Apply(w.db, s)))
  {
  }

  /** Moving a manifest may replace another manifest, never a post file. */
  lemma MoveManifestKeeps(formats: Formats, w: World, p: Path, q: Path)
    requires Inv(formats, w) && p in w.files && !IsMd(p)
    requires |q| == 2 && !IsMd(q) && Parent(q) in w.dirs
    ensures var w' := Move(w, p, q); Inv(formats, w') && Evolves(w, w')
  {
    var w' := Move(w, p, q);
    OriginsCarry(formats, w, w');
    forall r | r in w.files && IsMd(r) ensures StillThere(w', r, w.files[r]) {
      assert Holds(w', r, w.files[r]);
    }
    forall r | r in w'.files && IsMd(r) ensures CameFrom(w, w'.files[r]) {
      assert Holds(w, r, w'.files[r]);
    }
  }

  lemma FindBlogFacts(db: Db, slug: string)
    requires BlogsIndexed(db) && FindBlog(db, slug).Some?
    ensures var blog := FindBlog(db, slug).value; HasSlug(db, blog.id, slug) && db.blogs[blog.id] == blog
  {
  }

  lemma HomeIsNoPost(job: BlogJob)
    ensures Parent(Home(job)) == [job.slug] && |Home(job)| == 2 && !IsMd(Home(job))
  {
    assert [job.slug][..1] == [job.slug];
    assert Home(job)[1] == "blog.yml" && "blog.yml"[5..] == "yml";
  }

  /** One stage for a blog that has its row. */
  lemma KnownStageKeeps(formats: Formats, w: World, path: Path, job: BlogJob, k: nat)
    requires BlogsIndexed(w.db) && FindBlog(w.db, job.slug).Some?
    requires path in w.files && path != [] && !IsMd(path) && 0 < k <= BLOG_STAGES
    requires Inv(formats, BlogStage(w, path, job, k - 1))
    ensures var before, after := BlogStage(w, path, job, k - 1), BlogStage(w, path, job, k);
      Inv(formats, after) && Evolves(before, after)
  {
    var before, after := BlogStage(w, path, job, k - 1), BlogStage(w, path, job, k);
    HomeIsNoPost(job);
    FindBlogFacts(w.db, job.slug);
    if before == after {
      EvolvesRefl(before);
    } else if k == 1 {
      BlogRowsKeep(formats, before, RenameBlog(UpdateParams(job, FindBlog(w.db, job.slug).value.id)));
    } else if k == 2 {
      MakeDirKeeps(formats, before, [job.slug]);
    } else {
      MoveManifestKeeps(formats, before, path, Home(job));
    }
  }

  /** One stage for a new blog. */
  lemma NewStageKeeps(formats: Formats, w: World, path: Path, job: BlogJob, k: nat)
    requires FindBlog(w.db, job.slug).None?
    requires path in w.files && path != [] && !IsMd(path) && 0 < k <= BLOG_STAGES
    requires Inv(formats, BlogStage(w, path, job, k - 1))
    ensures var before, after := BlogStage(w, path, job, k - 1), BlogStage(w, path, job, k);
      Inv(formats, after) && Evolves(before, after)
  {
    var before := BlogStage(w, path, job, k - 1);
    HomeIsNoPost(job);
    if k == 1 {
      MakeDirKeeps(formats, before, [job.slug]);
    } else if k == 2 {
      MoveManifestKeeps(formats, before, path, Home(job));
    } else {
      BlogRowsKeep(formats, before, InsertBlog(CreateParams(job)));
    }
  }

  /** Wherever seedBlog stops, the invariant holds and no post file is lost. */
  lemma {:induction false} BlogStageKeeps(formats: Formats, w: World, path: Path, job: BlogJob, k: nat)
    requires Inv(formats, w) && path in w.files && !IsMd(path) && k <= BLOG_STAGES
    ensures var w' := BlogStage(w, path, job, k); Inv(formats, w') && Evolves(w, w')
  {
    if k == 0 {
      EvolvesRefl(w);
    } else {
      BlogStageKeeps(formats, w, path, job, k - 1);
      if FindBlog(w.db, job.slug).Some? {
        KnownStageKeeps(formats, w, path, job, k);
      } else {
        NewStageKeeps(formats, w, path, job, k);
      }
      EvolvesTrans(w, BlogStage(w, path, job, k - 1), BlogStage(w, path, job, k));
    }
  }
}
