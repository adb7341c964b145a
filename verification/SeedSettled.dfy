/**
 When a seeding run has nothing left to do, and why a step on one manifest or post leaves the others settled.
 These are the facts about runs in which no step fails.
 */
module SeedSettled {
  import opened Prelude
  import opened Slug
  import opened PublicId
  import opened Database
  import opened SeedWorld
  import Keys

  // ---- directory listings ----

  function Listing(files: map<Path, File>, dirs: set<Path>, dir: Path): set<string> {
    set p | p in files.Keys + dirs && |p| == |dir| + 1 && p[..|dir|] == dir :: p[|dir|]
  }

  function SubDirs(dirs: set<Path>, dir: Path): set<string> {
    set p | p in dirs && |p| == |dir| + 1 && p[..|dir|] == dir :: p[|dir|]
  }

  function Glob(files: map<Path, File>, dirs: set<Path>, dir: Path, suffix: string): set<string> {
    set name | name in Listing(files, dirs, dir) && EndsWith(name, suffix)
  }

  lemma InListing(w: World, dir: Path, name: string)
    ensures name in Listing(w.files, w.dirs, dir) <==> dir + [name] in w.files || dir + [name] in w.dirs
    ensures name in SubDirs(w.dirs, dir) <==> dir + [name] in w.dirs
  {
    var p := dir + [name];
    assert |p| == |dir| + 1 && p[..|dir|] == dir && p[|dir|] == name;
    forall q: Path | |q| == |dir| + 1 && q[..|dir|] == dir && q[|dir|] == name ensures q == p {
    }
  }

  // ---- posts ----

  /** A row the seeder made, with everything that goes with it. */
  ghost predicate Shelved(formats: Formats, w: World, id: string) {
    && IsPublicId(id) && id in w.db.posts && id in w.origin
    && exists p :: ShelvedAt(formats, w, id, p)
  }

  ghost predicate ShelvedAt(formats: Formats, w: World, id: string, p: Path)
    requires id in w.db.posts && id in w.origin
  {
    && |p| == 3 && IsMd(p) && p[1] == id && p in w.files && w.files[p].inode == w.origin[id]
    && ParsePost(formats, w.files[p].text).Some?
    && w.db.posts[id].s3Key == PostKey(p[0], id)
    && PostKey(p[0], id) in w.bucket
    && w.bucket[PostKey(p[0], id)] == ParsePost(formats, w.files[p].text).value.1
  }

  /** Seeding posts leaves manifests, blog folders and blog rows alone. */
  ghost predicate OnlyPosts(w: World, w': World) {
    && w.db.blogs == w'.db.blogs
    && (forall p :: !IsMd(p) ==> SameAt(w, w', p))
    && (forall p :: |p| == 1 ==> (p in w.dirs <==> p in w'.dirs))
  }

  ghost predicate SameAt(w: World, w': World, p: Path) {
    (p in w.files <==> p in w'.files) && (p in w.files ==> w.files[p] == w'.files[p])
  }

  ghost predicate Progress(formats: Formats, w: World, w': World) {
    && OnlyPosts(w, w')
    && (forall id :: Shelved(formats, w, id) ==> Shelved(formats, w', id))
    && (forall id :: id in w'.db.posts && id !in w.db.posts ==> Shelved(formats, w', id))
  }

  /** Nothing outside one blog folder has changed in the tree. */
  ghost predicate OutsideSame(w: World, w': World, dir: string) {
    forall p :: p != [] && p[0] != dir ==> SameAt(w, w', p) && (p in w.dirs <==> p in w'.dirs)
  }

  ghost predicate LooseSettled(formats: Formats, w: World, dir: string) {
    forall p :: p in w.files && |p| == 2 && p[0] == dir && IsMd(p) ==> Refused(formats, w, p)
  }

  ghost predicate FolderSettled(formats: Formats, w: World, q: Path)
    requires q != []
  {
    IsPublicId(q[|q| - 1]) && q[|q| - 1] !in w.db.posts ==>
      || |Glob(w.files, w.dirs, q, ".md")| != 1
      || forall name :: name in Glob(w.files, w.dirs, q, ".md") ==> Refused(formats, w, q + [name])
  }

  ghost predicate StructuredSettled(formats: Formats, w: World, dir: string) {
    forall q :: q in w.dirs && |q| == 2 && q[0] == dir ==> FolderSettled(formats, w, q)
  }

  ghost predicate DirSettled(formats: Formats, w: World, dir: string) {
    LooseSettled(formats, w, dir) && StructuredSettled(formats, w, dir)
  }

  ghost predicate PostsSettled(formats: Formats, w: World) {
    forall d :: [d] in w.dirs ==> DirSettled(formats, w, d)
  }

  lemma ProgressRefl(formats: Formats, w: World)
    ensures Progress(formats, w, w)
  {
  }

  lemma OnlyPostsTrans(a: World, b: World, c: World)
    requires OnlyPosts(a, b) && OnlyPosts(b, c)
    ensures OnlyPosts(a, c)
  {
    forall p | !IsMd(p) ensures SameAt(a, c, p) {
      assert SameAt(a, b, p) && SameAt(b, c, p);
    }
  }

  lemma ProgressTrans(formats: Formats, a: World, b: World, c: World)
    requires Progress(formats, a, b) && Progress(formats, b, c)
    ensures Progress(formats, a, c)
  {
    OnlyPostsTrans(a, b, c);
  }

  /** Posts are only added, and the blog rows stay. */
  ghost predicate PostsGrow(w: World, w': World) {
    && BlogsIndexed(w.db) && BlogsIndexed(w'.db)
    && w.db.blogs == w'.db.blogs && w.db.users == w'.db.users
    && forall id :: id in w.db.posts ==> id in w'.db.posts && w'.db.posts[id] == w.db.posts[id]
  }

  lemma PlanSame(formats: Formats, w: World, w': World, p: Path)
    requires PostsGrow(w, w') && p != [] && SameAt(w, w', p)
    ensures Plan(formats, w, p) == Plan(formats, w', p)
  {
    var blog := FindBlog(w.db, p[0]);
    if blog.Some? {
      FindBlogUnique(w'.db, blog.value.id, p[0]);
    } else if FindBlog(w'.db, p[0]).Some? {
      var id :| HasSlug(w'.db, id, p[0]);
      assert HasSlug(w.db, id, p[0]);
    }
  }

  /** A refused file stays refused: more rows never make a row allowed. */
  lemma RefusedStays(formats: Formats, w: World, w': World, p: Path)
    requires PostsGrow(w, w') && p != [] && SameAt(w, w', p) && Refused(formats, w, p)
    ensures Refused(formats, w', p)
  {
    PlanSame(formats, w, w', p);
  }

  /** Work in one blog folder leaves another folder's posts settled. */
  lemma SettledElsewhere(formats: Formats, w: World, w': World, dir: string, other: string)
    requires PostsGrow(w, w') && OutsideSame(w, w', dir) && other != dir && DirSettled(formats, w, other)
    ensures DirSettled(formats, w', other)
  {
    forall p | p in w'.files && |p| == 2 && p[0] == other && IsMd(p) ensures Refused(formats, w', p) {
      RefusedStays(formats, w, w', p);
    }
    forall q | q in w'.dirs && |q| == 2 && q[0] == other ensures FolderSettled(formats, w', q) {
      FolderSettledStays(formats, w, w', q);
    }
  }

  lemma FolderSettledStays(formats: Formats, w: World, w': World, q: Path)
    requires PostsGrow(w, w') && q != [] && FolderSettled(formats, w, q)
    requires forall name :: SameAt(w, w', q + [name]) && (q + [name] in w.dirs <==> q + [name] in w'.dirs)
    ensures FolderSettled(formats, w', q)
  {
    assert Glob(w.files, w.dirs, q, ".md") == Glob(w'.files, w'.dirs, q, ".md") by {
      forall name ensures name in Listing(w.files, w.dirs, q) <==> name in Listing(w'.files, w'.dirs, q) {
        InListing(w, q, name);
        InListing(w', q, name);
        assert SameAt(w, w', q + [name]);
      }
    }
    if IsPublicId(q[|q| - 1]) && q[|q| - 1] !in w'.db.posts && |Glob(w.files, w.dirs, q, ".md")| == 1 {
      forall name | name in Glob(w'.files, w'.dirs, q, ".md") ensures Refused(formats, w', q + [name]) {
        RefusedStays(formats, w, w', q + [name]);
      }
    }
  }

  // ---- a post seeded to the end ----

  function HomeOf(path: Path, publicId: string): Path
    requires path != []
  {
    [path[0], publicId, path[|path| - 1]]
  }

  /** A post seeded to the end, field by field. */
  ghost predicate FullySeeded(w: World, w': World, path: Path, publicId: string, job: PostJob, loose: bool)
    requires path in w.files && path != []
  {
    var home := HomeOf(path, publicId);
    && w'.files == (w.files - {path})[home := w.files[path]]
    && w'.dirs == (if loose then w.dirs + {[path[0]], [path[0], publicId]} else w.dirs)
    && (loose ==> [path[0]] in w.dirs)
    && w'.db.blogs == w.db.blogs
    && publicId in w'.db.posts && w'.db.posts[publicId].s3Key == PostKey(path[0], publicId)
    && w'.db.posts == w.db.posts[publicId := w'.db.posts[publicId]]
    && w'.origin == w.origin[publicId := w.files[path].inode]
    && w'.bucket == w.bucket[PostKey(path[0], publicId) := job.body]
  }

  lemma FullStage(formats: Formats, w: World, path: Path, publicId: string, job: PostJob, loose: bool)
    requires TreeOk(w) && BlogsIndexed(w.db) && PostReady(formats, w, path, publicId, job, loose)
    ensures IsLive(w.db, job.params.blogId)
    ensures FullySeeded(w, PostStage(w, path, publicId, job, loose, POST_STAGES), path, publicId, job, loose)
  {
    PlanFacts(formats, w, path, job);
    StageShape(w, path, publicId, job, loose, 3);
    assert path == if loose then [path[0], path[1]] else HomeOf(path, publicId);
    if loose {
      assert Parent(path) == [path[0]] == [path[0], publicId][..1];
    }
  }

  lemma NewIsShelved(formats: Formats, w: World, w': World, path: Path, publicId: string, job: PostJob, loose: bool)
    requires InOrder(w) && PostReady(formats, w, path, publicId, job, loose) && IsPublicId(publicId)
    requires FullySeeded(w, w', path, publicId, job, loose)
    ensures Shelved(formats, w', publicId)
  {
    PlanFacts(formats, w, path, job);
    assert ShelvedAt(formats, w', publicId, HomeOf(path, publicId));
  }

  lemma OldStaysShelved(
      formats: Formats, w: World, w': World, path: Path, publicId: string, job: PostJob, loose: bool, id: string)
    requires InOrder(w) && PostReady(formats, w, path, publicId, job, loose) && IsPublicId(publicId)
    requires FullySeeded(w, w', path, publicId, job, loose)
    requires Shelved(formats, w, id)
    ensures Shelved(formats, w', id)
  {
    var p :| ShelvedAt(formats, w, id, p);
    PlanFacts(formats, w, path, job);
    OthersStayPut(w, w', path, publicId, job, loose, p);
    OthersKeepObject(w, w', path, publicId, job, loose, id);
    ShelvedCarries(formats, w, w', id, p);
  }

  lemma OthersKeepObject(w: World, w': World, path: Path, publicId: string, job: PostJob, loose: bool, id: string)
    requires Indexed(w.db) && path in w.files && path != [] && FullySeeded(w, w', path, publicId, job, loose)
    requires HasSlug(w.db, job.params.blogId, path[0])
    requires id in w.db.posts && id in w.origin && publicId !in w.db.posts
    ensures id in w'.db.posts && w'.db.posts[id] == w.db.posts[id]
    ensures id in w'.origin && w'.origin[id] == w.origin[id]
    ensures var key := w.db.posts[id].s3Key; key in w.bucket ==> key in w'.bucket && w'.bucket[key] == w.bucket[key]
  {
    NewKeyIsNew(w.db, job.params, publicId, id);
  }

  /** A complete row stays complete while its own file, record and object stay. */
  lemma ShelvedCarries(formats: Formats, w: World, w': World, id: string, p: Path)
    requires Shelved(formats, w, id) && ShelvedAt(formats, w, id, p) && SameAt(w, w', p)
    requires id in w'.db.posts && w'.db.posts[id] == w.db.posts[id]
    requires id in w'.origin && w'.origin[id] == w.origin[id]
    requires var key := w.db.posts[id].s3Key; key in w'.bucket && w'.bucket[key] == w.bucket[key]
    ensures Shelved(formats, w', id)
  {
    assert ShelvedAt(formats, w', id, p);
  }

  /** A file in the folder of an older row does not move. */
  lemma OthersStayPut(w: World, w': World, path: Path, publicId: string, job: PostJob, loose: bool, p: Path)
    requires path in w.files && |path| == (if loose then 2 else 3) && (!loose ==> path[1] == publicId)
    requires FullySeeded(w, w', path, publicId, job, loose)
    requires |p| == 3 && p[1] != publicId
    ensures SameAt(w, w', p)
  {
    assert HomeOf(path, publicId)[1] == publicId;
  }

  /** The key of a new row is no other row's. */
  lemma NewKeyIsNew(db: Db, params: CreatePostParams, publicId: string, id: string)
    requires Indexed(db) && IsLive(db, params.blogId) && id in db.posts && id != publicId
    ensures db.posts[id].s3Key != NewPost(db, params, publicId).s3Key
  {
    var blog := db.blogs[params.blogId];
    assert PostRowOk(db.blogs, id, db.posts[id]);
    var slug :| ValidSlug(slug) && db.posts[id].s3Key == PostKey(slug, id);
    if db.posts[id].s3Key == PostKey(blog.slug, publicId) {
      Keys.PostKeyDeterminesId(slug, id, blog.slug, publicId);
    }
  }

  /** The rows of the new post and of all earlier ones are complete once every stage is done. */
  lemma FullStageProgress(
      formats: Formats, w: World, w': World, path: Path, publicId: string, job: PostJob, loose: bool)
    requires InOrder(w) && PostReady(formats, w, path, publicId, job, loose) && IsPublicId(publicId)
    requires FullySeeded(w, w', path, publicId, job, loose)
    ensures Progress(formats, w, w')
  {
    NewIsShelved(formats, w, w', path, publicId, job, loose);
    forall id | Shelved(formats, w, id) ensures Shelved(formats, w', id) {
      OldStaysShelved(formats, w, w', path, publicId, job, loose, id);
    }
    forall id | id in w'.db.posts && id !in w.db.posts ensures id == publicId {
    }
    OnlyPostsChanged(w, w', path, publicId, job, loose);
  }

  lemma OnlyPostsChanged(w: World, w': World, path: Path, publicId: string, job: PostJob, loose: bool)
    requires path in w.files && IsMd(path) && FullySeeded(w, w', path, publicId, job, loose)
    ensures OnlyPosts(w, w')
  {
  }

  // ---- one pass over the files of a blog folder ----

  /** What a calm seedPost does to everything but its own file. */
  ghost predicate CalmStep(formats: Formats, w: World, w': World, path: Path, loose: bool)
    requires path != []
  {
    && Progress(formats, w, w') && PostsGrow(w, w') && OutsideSame(w, w', path[0])
    && (if loose then forall p :: |p| == 2 && p != path ==> SameAt(w, w', p)
        else w'.files == w.files && w'.dirs == w.dirs)
  }

  lemma CalmStepRefl(formats: Formats, w: World, path: Path, loose: bool)
    requires path != [] && BlogsIndexed(w.db)
    ensures CalmStep(formats, w, w, path, loose)
  {
  }

  lemma StageOutside(w: World, w': World, path: Path, publicId: string, job: PostJob, loose: bool)
    requires path in w.files && IsMd(path) && FullySeeded(w, w', path, publicId, job, loose)
    requires |path| == (if loose then 2 else 3) && (!loose ==> path[1] == publicId)
    ensures OutsideSame(w, w', path[0])
    ensures loose ==> path !in w'.files && forall p :: |p| == 2 && p != path ==> SameAt(w, w', p)
    ensures !loose ==> w'.files == w.files && w'.dirs == w.dirs
  {
    var home := HomeOf(path, publicId);
    assert !loose ==> home == path;
    assert home[0] == path[0] && |home| == 3;
  }

  lemma FullStageIsCalm(formats: Formats, w: World, w': World, path: Path, publicId: string, job: PostJob, loose: bool)
    requires InOrder(w) && BlogsIndexed(w'.db) && w'.db.users == w.db.users
    requires PostReady(formats, w, path, publicId, job, loose) && IsPublicId(publicId)
    requires FullySeeded(w, w', path, publicId, job, loose)
    ensures CalmStep(formats, w, w', path, loose)
    ensures publicId in w'.db.posts && (loose ==> path !in w'.files)
  {
    FullStageProgress(formats, w, w', path, publicId, job, loose);
    StageOutside(w, w', path, publicId, job, loose);
    FullStageGrows(w, w', path, publicId, job, loose);
  }

  lemma FullStageGrows(w: World, w': World, path: Path, publicId: string, job: PostJob, loose: bool)
    requires BlogsIndexed(w.db) && BlogsIndexed(w'.db) && w'.db.users == w.db.users
    requires path in w.files && path != [] && FullySeeded(w, w', path, publicId, job, loose) && publicId !in w.db.posts
    ensures PostsGrow(w, w')
  {
  }

  /** The loose files of a folder are all refused, except those still to be visited. */
  ghost predicate LooseRest(formats: Formats, w: World, dir: string, rest: seq<string>) {
    forall p :: p in w.files && |p| == 2 && p[0] == dir && IsMd(p) ==> p[1] in rest || Refused(formats, w, p)
  }

  lemma LooseRestStart(formats: Formats, w: World, dir: string, rest: seq<string>)
    requires forall name :: name in Glob(w.files, w.dirs, [dir], ".md") ==> name in rest
    ensures LooseRest(formats, w, dir, rest)
  {
    forall p | p in w.files && |p| == 2 && p[0] == dir && IsMd(p) ensures p[1] in rest {
      InListing(w, [dir], p[1]);
      assert p == [dir] + [p[1]];
    }
  }

  lemma LooseRestStep(formats: Formats, w: World, w': World, dir: string, rest: seq<string>)
    requires rest != [] && LooseRest(formats, w, dir, rest)
    requires CalmStep(formats, w, w', [dir, rest[0]], true)
    requires [dir, rest[0]] in w'.files ==> Refused(formats, w', [dir, rest[0]])
    ensures LooseRest(formats, w', dir, rest[1..])
  {
    forall p | p in w'.files && |p| == 2 && p[0] == dir && IsMd(p) && p[1] !in rest[1..]
      ensures Refused(formats, w', p)
    {
      if p[1] == rest[0] {
        assert p == [dir, rest[0]];
      } else {
        assert p != [dir, rest[0]] && SameAt(w, w', p);
        RefusedStays(formats, w, w', p);
      }
    }
  }

  /** The post folders of a blog are all settled, except those still to be visited. */
  ghost predicate FoldersRest(formats: Formats, w: World, dir: string, rest: seq<string>) {
    forall q :: q in w.dirs && |q| == 2 && q[0] == dir ==> q[1] in rest || FolderSettled(formats, w, q)
  }

  lemma FoldersRestStart(formats: Formats, w: World, dir: string, rest: seq<string>)
    requires forall name :: name in SubDirs(w.dirs, [dir]) ==> name in rest
    ensures FoldersRest(formats, w, dir, rest)
  {
    forall q | q in w.dirs && |q| == 2 && q[0] == dir ensures q[1] in rest {
      InListing(w, [dir], q[1]);
      assert q == [dir] + [q[1]];
    }
  }

  lemma FoldersRestStep(formats: Formats, w: World, w': World, dir: string, rest: seq<string>)
    requires rest != [] && FoldersRest(formats, w, dir, rest) && PostsGrow(w, w')
    requires w'.files == w.files && w'.dirs == w.dirs
    requires FolderSettled(formats, w', [dir, rest[0]])
    ensures FoldersRest(formats, w', dir, rest[1..])
  {
    forall q | q in w'.dirs && |q| == 2 && q[0] == dir && q[1] !in rest[1..]
      ensures FolderSettled(formats, w', q)
    {
      if q[1] == rest[0] {
        assert q == [dir, rest[0]];
      } else {
        FolderSettledStays(formats, w, w', q);
      }
    }
  }

  lemma LooseSettledStays(formats: Formats, w: World, w': World, dir: string)
    requires LooseSettled(formats, w, dir) && PostsGrow(w, w') && w'.files == w.files
    ensures LooseSettled(formats, w', dir)
  {
    forall p | p in w'.files && |p| == 2 && p[0] == dir && IsMd(p) ensures Refused(formats, w', p) {
      RefusedStays(formats, w, w', p);
    }
  }

  lemma OutsideTrans(a: World, b: World, c: World, dir: string)
    requires OutsideSame(a, b, dir) && OutsideSame(b, c, dir)
    ensures OutsideSame(a, c, dir)
  {
    forall p | p != [] && p[0] != dir ensures SameAt(a, c, p) && (p in a.dirs <==> p in c.dirs) {
      assert SameAt(a, b, p) && SameAt(b, c, p);
    }
  }

  /** A calm pass over the loose files so far. */
  ghost predicate LoosePass(formats: Formats, w0: World, w: World, dir: string, rest: seq<string>) {
    && Progress(formats, w0, w) && OutsideSame(w0, w, dir)
    && LooseRest(formats, w, dir, rest)
    && (LooseSettled(formats, w0, dir) ==> w == w0)
  }

  lemma LoosePassStep(formats: Formats, w0: World, w: World, w': World, dir: string, rest: seq<string>)
    requires rest != [] && LoosePass(formats, w0, w, dir, rest)
    requires CalmStep(formats, w, w', [dir, rest[0]], true)
    requires [dir, rest[0]] in w'.files ==> Refused(formats, w', [dir, rest[0]])
    requires EndsWith(rest[0], ".md")
    requires Refused(formats, w, [dir, rest[0]]) ==> w' == w
    ensures LoosePass(formats, w0, w', dir, rest[1..])
  {
    ProgressTrans(formats, w0, w, w');
    OutsideTrans(w0, w, w', dir);
    LooseRestStep(formats, w, w', dir, rest);
    assert [dir, rest[0]] !in w.files ==> Refused(formats, w, [dir, rest[0]]);
  }

  /** A calm pass over the post folders so far. */
  ghost predicate FolderPass(formats: Formats, w0: World, w: World, dir: string, rest: seq<string>) {
    && Progress(formats, w0, w) && OutsideSame(w0, w, dir)
    && w.files == w0.files && w.dirs == w0.dirs
    && FoldersRest(formats, w, dir, rest)
    && (LooseSettled(formats, w0, dir) ==> LooseSettled(formats, w, dir))
    && (StructuredSettled(formats, w0, dir) ==> w == w0)
    && (forall name :: name in rest ==> [dir] + [name] in w0.dirs)
  }

  lemma FolderPassStep(formats: Formats, w0: World, w: World, w': World, dir: string, rest: seq<string>)
    requires rest != [] && FolderPass(formats, w0, w, dir, rest)
    requires CalmStep(formats, w, w', [dir, rest[0]], false)
    requires FolderSettled(formats, w', [dir, rest[0]])
    requires FolderSettled(formats, w, [dir, rest[0]]) ==> w' == w
    ensures FolderPass(formats, w0, w', dir, rest[1..])
  {
    ProgressTrans(formats, w0, w, w');
    OutsideTrans(w0, w, w', dir);
    FoldersRestStep(formats, w, w', dir, rest);
    if LooseSettled(formats, w0, dir) {
      LooseSettledStays(formats, w, w', dir);
    }
    assert rest[0] in rest && [dir] + [rest[0]] == [dir, rest[0]];
    if StructuredSettled(formats, w0, dir) {
      assert FolderSettled(formats, w0, [dir, rest[0]]);
    }
  }

  /** A calm pass over the blog folders so far. */
  ghost predicate BlogPass(formats: Formats, w0: World, w: World, rest: seq<string>) {
    && Progress(formats, w0, w)
    && (forall d :: [d] in w.dirs ==> d in rest || DirSettled(formats, w, d))
    && (PostsSettled(formats, w0) ==> w == w0)
    && (forall name :: name in rest ==> [name] in w0.dirs)
  }

  lemma BlogPassStart(formats: Formats, w: World, rest: seq<string>)
    requires forall name :: name in rest <==> name in SubDirs(w.dirs, [])
    ensures BlogPass(formats, w, w, rest)
  {
    forall d ensures [d] in w.dirs <==> d in rest {
      InListing(w, [], d);
      assert [] + [d] == [d];
    }
  }

  lemma BlogPassStep(formats: Formats, w0: World, w: World, w': World, rest: seq<string>)
    requires rest != [] && BlogPass(formats, w0, w, rest)
    requires Progress(formats, w, w') && PostsGrow(w, w') && OutsideSame(w, w', rest[0])
    requires DirSettled(formats, w', rest[0])
    requires DirSettled(formats, w, rest[0]) ==> w' == w
    ensures BlogPass(formats, w0, w', rest[1..])
  {
    ProgressTrans(formats, w0, w, w');
    forall d | [d] in w'.dirs && d !in rest[1..] ensures DirSettled(formats, w', d) {
      if d != rest[0] {
        assert [d] in w.dirs;
        SettledElsewhere(formats, w, w', rest[0], d);
      }
    }
    assert rest[0] in rest;
  }
}
