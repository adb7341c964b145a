/**
 The blog and post tables (internal/storage/sqlite/blogs.go, posts.go) with the unique indexes that migrations 4
 and 5 declare. Posts are keyed by public_id, which the table declares UNIQUE over all rows, deleted ones included.
 */
module Database {
  import opened Prelude
  import opened Slug

  const MAX_DESCRIPTION_LEN := 500
  const MAX_REGISTRATION_QUEUE := 1000

  datatype Blog = Blog(
    id: int, ownerId: int, slug: string, title: string, description: Option<string>,
    visibility: string, registrationMode: string, registrationLimit: Option<int>, deleted: bool)

  datatype Post = Post(
    id: int, blogId: int, authorId: int, publicId: string, slug: Option<string>, title: string,
    description: Option<string>, s3Key: string, isEncrypted: bool, encryptionIv: Option<string>,
    requiresAuth: bool, isListed: bool, allowComments: bool, publishedAt: Option<int>, deleted: bool)

  datatype CreateBlogParams = CreateBlogParams(
    ownerId: int, slug: string, title: string, description: Option<string>,
    visibility: string, registrationMode: string, registrationLimit: Option<int>)

  datatype UpdateBlogParams = UpdateBlogParams(
    blogId: int, ownerId: int, slug: string, title: string, description: Option<string>)

  datatype CreatePostParams = CreatePostParams(
    blogId: int, authorId: int, slug: Option<string>, title: string, description: Option<string>,
    isEncrypted: bool, encryptionIv: Option<string>, requiresAuth: bool, isListed: bool, allowComments: bool,
    publishedAt: Option<int>)

  /** The rows of the three tables. */
  datatype Db = Db(
    users: map<string, int>, blogs: map<int, Blog>, posts: map<string, Post>, nextBlog: int, nextPost: int)

  function EmptyDb(users: map<string, int>): Db {
    Db(users, map[], map[], 1, 1)
  }

  // ---- validation ----

  predicate ValidDescription(description: Option<string>) {
    description.None? || ByteLen(description.value) <= MAX_DESCRIPTION_LEN
  }

  predicate ValidBlog(slug: string, title: string, description: Option<string>) {
    ValidSlug(slug) && LegalTitle(title) && ValidDescription(description)
  }

  predicate ValidVisibility(visibility: string) {
    visibility == "public" || visibility == "private"
  }

  predicate ValidRegistration(mode: string, limit: Option<int>) {
    if mode == "limited" then limit.Some? && 1 <= limit.value <= MAX_REGISTRATION_QUEUE
    else (mode == "open" || mode == "closed" || mode == "invite_only") && limit.None?
  }

  predicate ValidPost(slug: Option<string>, title: string, description: Option<string>) {
    (slug.Some? ==> ValidSlug(slug.value)) && LegalTitle(title) && ValidDescription(description)
  }

  predicate ValidEncryption(isEncrypted: bool, iv: Option<string>) {
    isEncrypted == iv.Some?
  }

  // ---- what the indexes allow ----

  /** idx_blogs_slug_active: no other live blog has the slug. */
  predicate SlugFree(blogs: map<int, Blog>, slug: string, except: int) {
    forall id <- blogs :: !blogs[id].deleted && blogs[id].slug == slug ==> id == except
  }

  /** idx_posts_slug_active: no live post of the blog has the slug. */
  predicate PostSlugFree(posts: map<string, Post>, blogId: int, slug: Option<string>) {
    slug.Some? ==>
      forall pid <- posts :: !(!posts[pid].deleted && posts[pid].blogId == blogId && posts[pid].slug == slug)
  }

  predicate IsLive(db: Db, blogId: int) {
    blogId in db.blogs && !db.blogs[blogId].deleted
  }

  predicate HasSlug(db: Db, blogId: int, slug: string) {
    IsLive(db, blogId) && db.blogs[blogId].slug == slug
  }

  predicate BlogAllowed(db: Db, p: CreateBlogParams) {
    && ValidBlog(p.slug, p.title, p.description)
    && ValidVisibility(p.visibility)
    && ValidRegistration(p.registrationMode, p.registrationLimit)
    && p.ownerId in db.users.Values
    && SlugFree(db.blogs, p.slug, 0)
  }

  predicate UpdateAllowed(db: Db, p: UpdateBlogParams) {
    && p.blogId >= 1
    && p.ownerId >= 1
    && ValidBlog(p.slug, p.title, p.description)
    && IsLive(db, p.blogId)
    && db.blogs[p.blogId].ownerId == p.ownerId
    && SlugFree(db.blogs, p.slug, p.blogId)
  }

  predicate DeleteAllowed(db: Db, blogId: int, ownerId: int) {
    blogId >= 1 && ownerId >= 1 && IsLive(db, blogId) && db.blogs[blogId].ownerId == ownerId
  }

  /** Everything a post insert needs besides its identifier. */
  predicate RowAllowed(db: Db, p: CreatePostParams) {
    && p.authorId >= 1
    && p.blogId >= 1
    && ValidPost(p.slug, p.title, p.description)
    && IsLive(db, p.blogId)
    && ValidEncryption(p.isEncrypted, p.encryptionIv)
    && p.authorId in db.users.Values
    && PostSlugFree(db.posts, p.blogId, p.slug)
  }

  predicate PostAllowed(db: Db, p: CreatePostParams, publicId: string) {
    RowAllowed(db, p) && publicId != "" && publicId !in db.posts
  }

  /** genPostS3Key. */
  function PostKey(blogSlug: string, publicId: string): string {
    blogSlug + "/" + publicId
  }

  // ---- the rows after each statement ----

  function NewBlog(db: Db, p: CreateBlogParams): Blog {
    Blog(db.nextBlog, p.ownerId, p.slug, p.title, p.description,
         p.visibility, p.registrationMode, p.registrationLimit, false)
  }

  function NewPost(db: Db, p: CreatePostParams, publicId: string): Post
    requires IsLive(db, p.blogId)
  {
    Post(db.nextPost, p.blogId, p.authorId, publicId, p.slug, p.title, p.description,
         PostKey(db.blogs[p.blogId].slug, publicId), p.isEncrypted, p.encryptionIv,
         p.requiresAuth, p.isListed, p.allowComments, p.publishedAt, false)
  }

  datatype Statement =
    | InsertBlog(blog: CreateBlogParams)
    | RenameBlog(update: UpdateBlogParams)
    | SoftDeleteBlog(blogId: int, ownerId: int)
    | InsertPost(post: CreatePostParams, publicId: string)

  function Apply(db: Db, s: Statement): Db {
    match s
    case InsertBlog(p) =>
      if BlogAllowed(db, p) then
        db.(blogs := db.blogs[db.nextBlog := NewBlog(db, p)], nextBlog := db.nextBlog + 1)
      else db
    case RenameBlog(p) =>
      if UpdateAllowed(db, p) then
        var row := db.blogs[p.blogId].(slug := p.slug, title := p.title, description := p.description);
        db.(blogs := db.blogs[p.blogId := row])
      else db
    case SoftDeleteBlog(blogId, ownerId) =>
      if DeleteAllowed(db, blogId, ownerId) then
        db.(blogs := db.blogs[blogId := db.blogs[blogId].(deleted := true)])
      else db
    case InsertPost(p, publicId) =>
      if PostAllowed(db, p, publicId) then
        db.(posts := db.posts[publicId := NewPost(db, p, publicId)], nextPost := db.nextPost + 1)
      else db
  }

  function ApplyAll(db: Db, statements: seq<Statement>): Db {
    if statements == [] then db
    else Apply(ApplyAll(db, statements[..|statements| - 1]), statements[|statements| - 1])
  }

  // ---- the indexes hold in every reachable database ----

  ghost predicate BlogsIndexed(db: Db) {
    && 0 < db.nextBlog
    && (forall id <- db.blogs :: 0 < id < db.nextBlog && db.blogs[id].id == id && ValidSlug(db.blogs[id].slug))
    && (forall i, j, slug :: HasSlug(db, i, slug) && HasSlug(db, j, slug) ==> i == j)
  }

  ghost predicate PostsIndexed(db: Db) {
    && (forall pid <- db.posts :: PostRowOk(db.blogs, pid, db.posts[pid]))
    && (forall p, q :: p in db.posts && q in db.posts && SameSlot(db.posts[p], db.posts[q]) ==> p == q)
  }

  ghost predicate PostRowOk(blogs: map<int, Blog>, publicId: string, row: Post) {
    && row.publicId == publicId != ""
    && row.blogId in blogs
    && (row.slug.Some? ==> ValidSlug(row.slug.value))
    && exists blogSlug :: ValidSlug(blogSlug) && row.s3Key == PostKey(blogSlug, publicId)
  }

  ghost predicate SameSlot(p: Post, q: Post) {
    !p.deleted && !q.deleted && p.blogId == q.blogId && p.slug.Some? && p.slug == q.slug
  }

  ghost predicate Indexed(db: Db) {
    BlogsIndexed(db) && PostsIndexed(db)
  }

  lemma ApplyKeepsBlogs(db: Db, s: Statement)
    requires BlogsIndexed(db)
    ensures BlogsIndexed(Apply(db, s))
    ensures db.blogs.Keys <= Apply(db, s).blogs.Keys
  {
    var after := Apply(db, s);
    forall i, j, slug | HasSlug(after, i, slug) && HasSlug(after, j, slug) ensures i == j {
      assert HasSlug(db, i, slug) && HasSlug(db, j, slug) ==> i == j;
    }
  }

  lemma InsertKeepsPosts(db: Db, p: CreatePostParams, publicId: string)
    requires Indexed(db) && PostAllowed(db, p, publicId)
    ensures PostsIndexed(Apply(db, InsertPost(p, publicId)))
  {
    var row := NewPost(db, p, publicId);
    assert ValidSlug(db.blogs[p.blogId].slug);
    assert PostRowOk(db.blogs, publicId, row);
    var after := Apply(db, InsertPost(p, publicId)).posts;
    forall q, r | q in after && r in after && SameSlot(after[q], after[r]) ensures q == r {
      assert q in db.posts && r in db.posts ==> SameSlot(db.posts[q], db.posts[r]);
    }
  }

  /** Every statement keeps all the indexes. */
  lemma ApplyKeepsIndexed(db: Db, s: Statement)
    requires Indexed(db)
    ensures Indexed(Apply(db, s))
  {
    ApplyKeepsBlogs(db, s);
    match s
    case InsertPost(p, publicId) =>
      if PostAllowed(db, p, publicId) { InsertKeepsPosts(db, p, publicId); }
    case _ =>
      var after := Apply(db, s);
      forall pid | pid in after.posts ensures PostRowOk(after.blogs, pid, after.posts[pid]) {
        assert PostRowOk(db.blogs, pid, db.posts[pid]);
      }
  }

  lemma {:induction false} ReachableIndexed(db: Db, statements: seq<Statement>)
    requires Indexed(db)
    ensures Indexed(ApplyAll(db, statements))
  {
    if statements != [] {
      ReachableIndexed(db, statements[..|statements| - 1]);
      ApplyKeepsIndexed(ApplyAll(db, statements[..|statements| - 1]), statements[|statements| - 1]);
    }
  }

  // ---- who may change what ----

  /** A statement of the blog's owner, while it is live. */
  predicate ByOwnerOf(db: Db, s: Statement, id: int) {
    && IsLive(db, id)
    && match s
       case RenameBlog(p) => p.blogId == id && p.ownerId == db.blogs[id].ownerId
       case SoftDeleteBlog(blogId, ownerId) => blogId == id && ownerId == db.blogs[id].ownerId
       case _ => false
  }

  /**
   The row of a blog is changed by its owner's statements alone, and by them only in what they name; no statement
   changes the row of a post, or takes any row away.
   */
  lemma OnlyOwnersChange(db: Db, s: Statement, id: int)
    requires BlogsIndexed(db) && id in db.blogs
    ensures var db' := Apply(db, s);
      && id in db'.blogs && db'.users == db.users
      && (forall pid :: pid in db.posts ==> pid in db'.posts && db'.posts[pid] == db.posts[pid])
      && (db'.blogs[id] != db.blogs[id] ==> ByOwnerOf(db, s, id))
      && (s.RenameBlog? ==>
            db'.blogs[id] == db.blogs[id] ||
            db'.blogs[id] == db.blogs[id].(
              slug := s.update.slug, title := s.update.title, description := s.update.description))
      && (s.SoftDeleteBlog? ==> db'.blogs[id] == db.blogs[id] || db'.blogs[id] == db.blogs[id].(deleted := true))
  {
  }

  // ---- what the validators let in ----

  /** Every row is of a length and a kind the validators allow, and refers to rows that are there. */
  ghost predicate BlogFits(db: Db, row: Blog) {
    && 5 <= ByteLen(row.slug) <= 100 && IsSlug(row.slug) && 5 <= ByteLen(row.title) <= 100
    && (row.description.Some? ==> ByteLen(row.description.value) <= 500)
    && row.visibility in ["public", "private"]
    && row.registrationMode in ["open", "closed", "invite_only", "limited"]
    && (row.registrationMode == "limited" <==> row.registrationLimit.Some?)
    && (row.registrationLimit.Some? ==> 1 <= row.registrationLimit.value <= 1000)
    && row.ownerId in db.users.Values
  }

  ghost predicate PostFits(db: Db, row: Post) {
    && (row.slug.Some? ==> 5 <= ByteLen(row.slug.value) <= 100 && IsSlug(row.slug.value))
    && 5 <= ByteLen(row.title) <= 100
    && (row.description.Some? ==> ByteLen(row.description.value) <= 500)
    && (row.isEncrypted <==> row.encryptionIv.Some?)
    && row.blogId in db.blogs && row.authorId in db.users.Values
  }

  ghost predicate RowsFit(db: Db) {
    && (forall id :: id in db.blogs ==> BlogFits(db, db.blogs[id]))
    && (forall pid :: pid in db.posts ==> PostFits(db, db.posts[pid]))
  }

  lemma NewBlogFits(db: Db, p: CreateBlogParams)
    requires BlogAllowed(db, p)
    ensures BlogFits(db, NewBlog(db, p))
  {
  }

  lemma NewPostFits(db: Db, p: CreatePostParams, publicId: string)
    requires PostAllowed(db, p, publicId)
    ensures PostFits(db, NewPost(db, p, publicId))
  {
  }

  lemma RenamedFits(db: Db, p: UpdateBlogParams)
    requires UpdateAllowed(db, p) && BlogFits(db, db.blogs[p.blogId])
    ensures BlogFits(db, db.blogs[p.blogId].(slug := p.slug, title := p.title, description := p.description))
  {
  }

  lemma FitsLater(db: Db, db': Db)
    requires db'.users == db.users && db.blogs.Keys <= db'.blogs.Keys
    ensures forall row :: BlogFits(db, row) ==> BlogFits(db', row)
    ensures forall row :: PostFits(db, row) ==> PostFits(db', row)
  {
  }

  lemma ApplyKeepsFit(db: Db, s: Statement)
    requires RowsFit(db)
    ensures RowsFit(Apply(db, s))
  {
    var db' := Apply(db, s);
    FitsLater(db, db');
    match s
    case InsertBlog(p) => if BlogAllowed(db, p) { NewBlogFits(db, p); }
    case RenameBlog(p) => if UpdateAllowed(db, p) { RenamedFits(db, p); }
    case InsertPost(p, publicId) => if PostAllowed(db, p, publicId) { NewPostFits(db, p, publicId); }
    case SoftDeleteBlog(id, _) => if id in db.blogs { assert BlogFits(db, db.blogs[id].(deleted := true)); }
  }

  lemma {:induction false} ReachableFits(users: map<string, int>, statements: seq<Statement>)
    ensures RowsFit(ApplyAll(EmptyDb(users), statements))
  {
    if statements != [] {
      ReachableFits(users, statements[..|statements| - 1]);
      ApplyKeepsFit(ApplyAll(EmptyDb(users), statements[..|statements| - 1]), statements[|statements| - 1]);
    }
  }

  // ---- lookups ----

  /** GetBlogBySlug: the live row with the slug, if there is one. */
  ghost function FindBlog(db: Db, slug: string): (r: Option<Blog>)
    ensures r.Some? <==> exists id :: HasSlug(db, id, slug)
    ensures r.Some? ==> exists id :: HasSlug(db, id, slug) && r.value == db.blogs[id]
  {
    if id :| HasSlug(db, id, slug) then Some(db.blogs[id]) else None
  }

  /** The partial index makes the lookup by slug mean one blog. */
  lemma FindBlogUnique(db: Db, id: int, slug: string)
    requires BlogsIndexed(db) && HasSlug(db, id, slug)
    ensures FindBlog(db, slug) == Some(db.blogs[id])
  {
    var other :| HasSlug(db, other, slug) && FindBlog(db, slug) == Some(db.blogs[other]);
    assert other == id;
  }

  datatype Lookup<T> = Found(row: T) | NotFound | Failed

  /** The store over its tables; SQLite runs one statement at a time (a single connection). */
  class Store {
    var users: map<string, int>
    var blogs: map<int, Blog>
    var posts: map<string, Post>
    var nextBlog: int
    var nextPost: int
    // the file each seeded row was made from, by inode: a history variable nothing reads
    ghost var origin: map<string, nat>

    function Rows(): Db
      reads this
    {
      Db(users, blogs, posts, nextBlog, nextPost)
    }

    constructor (users: map<string, int>)
      ensures Rows() == EmptyDb(users) && Indexed(Rows()) && origin == map[]
    {
      this.users := users;
      this.blogs := map[];
      this.posts := map[];
      this.nextBlog := 1;
      this.nextPost := 1;
      this.origin := map[];
    }

    method CreateBlog(p: CreateBlogParams) returns (r: Result<Blog>)
      modifies `blogs, `nextBlog
      ensures r.Ok? <==> BlogAllowed(old(Rows()), p)
      ensures Rows() == Apply(old(Rows()), InsertBlog(p))
      ensures r.Ok? ==> r.value == NewBlog(old(Rows()), p)
    {
      if !ValidBlog(p.slug, p.title, p.description) || !ValidVisibility(p.visibility)
         || !ValidRegistration(p.registrationMode, p.registrationLimit)
      {
        return Err;
      }
      // the foreign key and the partial unique index
      if p.ownerId !in users.Values || !SlugFree(blogs, p.slug, 0) {
        return Err;
      }
      var row := Blog(nextBlog, p.ownerId, p.slug, p.title, p.description,
                      p.visibility, p.registrationMode, p.registrationLimit, false);
      blogs := blogs[nextBlog := row];
      nextBlog := nextBlog + 1;
      return Ok(row);
    }

    method GetBlogBySlug(slug: string) returns (r: Lookup<Blog>)
      requires BlogsIndexed(Rows())
      ensures r.Failed? <==> !ValidSlug(slug)
      ensures ValidSlug(slug) ==>
        r == match FindBlog(Rows(), slug) case Some(b) => Found(b) case None => NotFound
    {
      if !ValidSlug(slug) {
        return Failed;
      }
      var ids := blogs.Keys;
      while ids != {}
        invariant ids <= blogs.Keys
        invariant forall id :: id in blogs && id !in ids ==> !HasSlug(Rows(), id, slug)
        decreases ids
      {
        var id := Pick(ids);
        if !blogs[id].deleted && blogs[id].slug == slug {
          FindBlogUnique(Rows(), id, slug);
          return Found(blogs[id]);
        }
        ids := ids - {id};
      }
      return NotFound;
    }

    method UpdateBlog(p: UpdateBlogParams) returns (ok: bool)
      modifies `blogs
      ensures ok <==> UpdateAllowed(old(Rows()), p)
      ensures Rows() == Apply(old(Rows()), RenameBlog(p))
    {
      if p.blogId < 1 || p.ownerId < 1 {
        return false;
      }
      if !ValidBlog(p.slug, p.title, p.description) {
        return false;
      }
      if p.blogId !in blogs || blogs[p.blogId].deleted || blogs[p.blogId].ownerId != p.ownerId {
        return false;
      }
      if !SlugFree(blogs, p.slug, p.blogId) {
        return false;
      }
      blogs := blogs[p.blogId := blogs[p.blogId].(slug := p.slug, title := p.title, description := p.description)];
      return true;
    }

    method DeleteBlog(blogId: int, ownerId: int) returns (ok: bool)
      modifies `blogs
      ensures ok <==> DeleteAllowed(old(Rows()), blogId, ownerId)
      ensures Rows() == Apply(old(Rows()), SoftDeleteBlog(blogId, ownerId))
    {
      if blogId < 1 || ownerId < 1 {
        return false;
      }
      if blogId !in blogs || blogs[blogId].deleted || blogs[blogId].ownerId != ownerId {
        return false;
      }
      blogs := blogs[blogId := blogs[blogId].(deleted := true)];
      return true;
    }

    /** CreatePost with the identifier it ends up with: the caller's, or a generated one. */
    method CreatePost(p: CreatePostParams, given: string, generated: Result<string>) returns (r: Result<Post>)
      modifies `posts, `nextPost
      ensures r.Ok? <==>
        (given != "" || generated.Ok?)
        && PostAllowed(old(Rows()), p, if given != "" then given else generated.value)
      ensures given == "" && generated.Err? ==> Rows() == old(Rows())
      ensures given != "" || generated.Ok? ==>
        Rows() == Apply(old(Rows()), InsertPost(p, if given != "" then given else generated.value))
      ensures r.Ok? ==> r.value == NewPost(old(Rows()), p, if given != "" then given else generated.value)
    {
      if p.authorId < 1 || p.blogId < 1 || !ValidPost(p.slug, p.title, p.description) {
        return Err;
      }
      var publicId := given;
      if publicId == "" {
        if generated.Err? {
          return Err;
        }
        publicId := generated.value;
      }
      if publicId == "" || p.blogId !in blogs || blogs[p.blogId].deleted {
        return Err;
      }
      var s3Key := PostKey(blogs[p.blogId].slug, publicId);
      if !ValidEncryption(p.isEncrypted, p.encryptionIv) {
        return Err;
      }
      // the foreign key on users, UNIQUE(public_id) and the live (blog_id, slug) index
      if p.authorId !in users.Values || publicId in posts || !PostSlugFree(posts, p.blogId, p.slug) {
        return Err;
      }
      var row := Post(nextPost, p.blogId, p.authorId, publicId, p.slug, p.title, p.description, s3Key,
                      p.isEncrypted, p.encryptionIv, p.requiresAuth, p.isListed, p.allowComments, p.publishedAt, false);
      posts := posts[publicId := row];
      nextPost := nextPost + 1;
      return Ok(row);
    }

    method GetAllPostPublicIds() returns (ids: set<string>)
      ensures forall pid :: pid in ids <==> pid in posts && !posts[pid].deleted
    {
      ids := set pid | pid in posts && !posts[pid].deleted;
    }
  }
}
