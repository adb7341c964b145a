/**
 The same for manifests: what one calm seedBlog does to the tree and the rows, and when every manifest is settled.
 A blog folder counts as named by its own manifest when its name is the slug of the manifest's title.
 */
module BlogSettled {
  import opened Prelude
  import opened Slug
  import opened Database
  import opened SeedWorld
  import opened SeedSettled

  /** blog.yml, and blog.yaml only when there is no blog.yml. */
  function FirstManifest(files: map<Path, File>, dir: string): Option<Path> {
    if [dir, "blog.yml"] in files then Some([dir, "blog.yml"])
    else if [dir, "blog.yaml"] in files then Some([dir, "blog.yaml"])
    else None
  }

  ghost predicate OwnNamedDir(formats: Formats, w: World, dir: string) {
    var q := FirstManifest(w.files, dir);
    q.Some? && ParseManifest(formats, w.files[q.value].text).Some? ==>
      Slugify(ParseManifest(formats, w.files[q.value].text).value.title) == dir
  }

  ghost predicate OwnNamed(formats: Formats, w: World) {
    forall d :: [d] in w.dirs ==> OwnNamedDir(formats, w, d)
  }

  /** seedBlog ends without an error, given that no step fails. */
  ghost predicate Accepts(db: Db, job: BlogJob) {
    match FindBlog(db, job.slug)
    case Some(blog) => UpdateAllowed(db, UpdateParams(job, blog.id))
    case None => BlogAllowed(db, CreateParams(job))
  }

  ghost predicate AcceptsAt(formats: Formats, w: World, path: Path) {
    BlogPlan(formats, w, path).Some? && Accepts(w.db, BlogPlan(formats, w, path).value)
  }

  /** A loose manifest the seeder leaves where it is. */
  ghost predicate LooseSteady(formats: Formats, w: World, name: string) {
    var plan := BlogPlan(formats, w, [name]);
    plan.None? || (FindBlog(w.db, plan.value.slug).Some? && !Accepts(w.db, plan.value))
  }

  ghost predicate JobSteady(db: Db, path: Path, job: BlogJob) {
    match FindBlog(db, job.slug)
    case Some(blog) =>
      !Accepts(db, job) || (blog.title == job.manifest.title && blog.description == Some(job.manifest.description))
    case None => path == Home(job) && !Accepts(db, job)
  }

  /** A folder whose manifest says what its row says already, or cannot be followed. */
  ghost predicate FolderSteady(formats: Formats, w: World, dir: string) {
    var q := FirstManifest(w.files, dir);
    q.Some? ==>
      var plan := BlogPlan(formats, w, q.value);
      plan.Some? ==> plan.value.slug == dir && JobSteady(w.db, q.value, plan.value)
  }

  predicate IsManifestName(name: string) {
    EndsWith(name, ".yml") || EndsWith(name, ".yaml")
  }

  ghost predicate BlogsSettled(formats: Formats, w: World) {
    && OwnNamed(formats, w)
    && (forall name :: IsManifestName(name) ==> LooseSteady(formats, w, name))
    && (forall d :: [d] in w.dirs ==> FolderSteady(formats, w, d))
  }

  /**
   The manifests the seeder looks at: loose ones, and the first in a folder. A blog.yaml beside a blog.yml is never
   seeded as long as the look for the blog.yml does not fail.
   */
  ghost predicate IsLookedAt(w: World, path: Path) {
    || (|path| == 1 && (EndsWith(path[0], ".yml") || EndsWith(path[0], ".yaml")))
    || (|path| == 2 && [path[0]] in w.dirs && path in w.files
        && (path[1] == "blog.yml" || (path[1] == "blog.yaml" && [path[0], "blog.yml"] !in w.files)))
  }

  lemma LookedAtInFolder(w: World, path: Path)
    requires IsLookedAt(w, path) && |path| == 2
    ensures [path[0]] in w.dirs && FirstManifest(w.files, path[0]) == Some(path) && Parent(path) == [path[0]]
  {
    assert path == [path[0], path[1]];
  }

  /** Such a manifest that is valid, has its owner, and whose row is there or would be allowed. */
  ghost predicate CouldHaveRow(formats: Formats, w: World, path: Path) {
    && IsLookedAt(w, path)
    && BlogPlan(formats, w, path).Some?
    && (BlogAllowed(w.db, CreateParams(BlogPlan(formats, w, path).value))
        || FindBlog(w.db, BlogPlan(formats, w, path).value.slug).Some?)
  }

  /** In a settled tree every such manifest has its blog's row. */
  lemma ValidManifestHasRow(formats: Formats, w: World, path: Path)
    requires BlogsSettled(formats, w) && BlogsIndexed(w.db) && CouldHaveRow(formats, w, path)
    ensures exists id :: HasSlug(w.db, id, BlogPlan(formats, w, path).value.slug)
  {
    if |path| == 1 {
      assert path == [path[0]] && LooseSteady(formats, w, path[0]);
    } else {
      LookedAtInFolder(w, path);
      assert FolderSteady(formats, w, path[0]);
    }
  }

  // ---- how far a manifest got, field by field ----

  /** Whether the first k stages of seeding a manifest move it. */
  ghost predicate ManifestMoved(w: World, path: Path, job: BlogJob, k: nat)
    requires path != []
  {
    match FindBlog(w.db, job.slug)
    case Some(blog) => UpdateAllowed(w.db, UpdateParams(job, blog.id)) && Parent(path) != [job.slug] && k >= 3
    case None => k >= 2
  }

  ghost predicate IsBlogStage(w: World, w': World, path: Path, job: BlogJob, k: nat)
    requires path in w.files && path != []
  {
    && w'.files == (if ManifestMoved(w, path, job, k) then (w.files - {path})[Home(job) := w.files[path]] else w.files)
    && w.dirs <= w'.dirs <= w.dirs + {[job.slug]}
    && (ManifestMoved(w, path, job, k) ==> [job.slug] in w'.dirs)
    && w'.origin == w.origin && w'.bucket == w.bucket
  }

  lemma BlogStageFields(w: World, path: Path, job: BlogJob, k: nat)
    requires path in w.files && path != []
    ensures IsBlogStage(w, BlogStage(w, path, job, k), path, job, k)
  {
    assert [job.slug][..1] == [job.slug];
  }

  ghost predicate HasPlace(w: World, inode: nat) {
    exists p :: p in w.files && w.files[p].inode == inode
  }

  /**
   Manifests are not kept the way post files are. Seeding a manifest loses a file if and only if the file lies where
   the manifest goes, is another one, and the move is made: before a new blog has its row, or after a known one is
   updated from a manifest elsewhere.
   */
  lemma ManifestReplaced(w: World, path: Path, job: BlogJob, k: nat, q: Path)
    requires TreeOk(w) && path in w.files && q in w.files
    ensures HasPlace(BlogStage(w, path, job, k), w.files[q].inode) <==>
      !(q == Home(job) && path != Home(job) && ManifestMoved(w, path, job, k))
  {
    var w' := BlogStage(w, path, job, k);
    BlogStageFields(w, path, job, k);
    if ManifestMoved(w, path, job, k) {
      if q == path {
        assert w'.files[Home(job)].inode == w.files[q].inode;
      } else if q != Home(job) {
        assert w'.files[q].inode == w.files[q].inode;
      }
    } else {
      assert w'.files[q].inode == w.files[q].inode;
    }
  }

  /**
   Why folders have to be named by their own manifests for one run to be enough: seeding another blog's blog.yml
   brings the blog.yaml beside it to light, if and only if the blog.yml is moved; until then nobody looks at it.
   */
  lemma ForeignManifestHides(w: World, dir: string, job: BlogJob, k: nat)
    requires [dir, "blog.yml"] in w.files && [dir, "blog.yaml"] in w.files && [dir] in w.dirs && job.slug != dir
    ensures var w' := BlogStage(w, [dir, "blog.yml"], job, k);
      && !IsLookedAt(w, [dir, "blog.yaml"])
      && (IsLookedAt(w', [dir, "blog.yaml"]) <==> ManifestMoved(w, [dir, "blog.yml"], job, k))
      && [dir, "blog.yaml"] in w'.files && w'.files[[dir, "blog.yaml"]] == w.files[[dir, "blog.yaml"]]
  {
    BlogStageFields(w, [dir, "blog.yml"], job, k);
    var first, second: Path := [dir, "blog.yml"], [dir, "blog.yaml"];
    assert first[1] != second[1] && Home(job)[0] != dir;
  }

  // ---- one calm seedBlog, field by field ----

  ghost predicate BlogDone(w: World, w': World, path: Path, job: BlogJob)
    requires path in w.files && path != []
  {
    var moved := FindBlog(w.db, job.slug).None? || Parent(path) != [job.slug];
    && w'.files == (if moved then (w.files - {path})[Home(job) := w.files[path]] else w.files)
    && w'.dirs == (if moved then w.dirs + {[job.slug]} else w.dirs)
    && w'.db.users == w.db.users && w'.db.posts == w.db.posts && w'.origin == w.origin && w'.bucket == w.bucket
    && BlogsIndexed(w.db) && BlogsIndexed(w'.db)
    && (forall s :: s != job.slug ==> FindBlog(w'.db, s) == FindBlog(w.db, s))
    && RowFollows(w.db, w'.db, job)
  }

  /** The row of the manifest's slug, before and after. */
  ghost predicate RowFollows(db: Db, db': Db, job: BlogJob) {
    match FindBlog(db, job.slug)
    case Some(blog) =>
      FindBlog(db', job.slug) == Some(blog.(title := job.manifest.title, description := Some(job.manifest.description)))
    case None =>
      if BlogAllowed(db, CreateParams(job)) then FindBlog(db', job.slug) == Some(NewBlog(db, CreateParams(job)))
      else FindBlog(db', job.slug) == None
  }

  lemma FindOthers(db: Db, db': Db, slug: string)
    requires BlogsIndexed(db) && BlogsIndexed(db')
    requires forall id :: HasSlug(db, id, slug) <==> HasSlug(db', id, slug)
    requires forall id :: HasSlug(db, id, slug) ==> db.blogs[id] == db'.blogs[id]
    ensures FindBlog(db', slug) == FindBlog(db, slug)
  {
    if id :| HasSlug(db, id, slug) {
      FindBlogUnique(db, id, slug);
      FindBlogUnique(db', id, slug);
    }
  }

  lemma UpdateFollows(db: Db, job: BlogJob)
    requires BlogsIndexed(db) && FindBlog(db, job.slug).Some? && Accepts(db, job)
    ensures var db' := Apply(db, RenameBlog(UpdateParams(job, FindBlog(db, job.slug).value.id)));
      && BlogsIndexed(db') && RowFollows(db, db', job)
      && (forall s :: s != job.slug ==> FindBlog(db', s) == FindBlog(db, s))
  {
    var blog := FindBlog(db, job.slug).value;
    var statement := RenameBlog(UpdateParams(job, blog.id));
    var db' := Apply(db, statement);
    ApplyKeepsBlogs(db, statement);
    FindBlogFacts(db, job.slug);
    FindBlogUnique(db', blog.id, job.slug);
    forall s | s != job.slug ensures FindBlog(db', s) == FindBlog(db, s) {
      FindOthers(db, db', s);
    }
  }

  lemma CreateFollows(db: Db, job: BlogJob)
    requires BlogsIndexed(db) && FindBlog(db, job.slug).None?
    ensures var db' := Apply(db, InsertBlog(CreateParams(job)));
      && BlogsIndexed(db') && RowFollows(db, db', job)
      && (forall s :: s != job.slug ==> FindBlog(db', s) == FindBlog(db, s))
  {
    var statement := InsertBlog(CreateParams(job));
    var db' := Apply(db, statement);
    ApplyKeepsBlogs(db, statement);
    if BlogAllowed(db, CreateParams(job)) {
      FindBlogUnique(db', db.nextBlog, job.slug);
    }
    forall s | s != job.slug ensures FindBlog(db', s) == FindBlog(db, s) {
      FindOthers(db, db', s);
    }
  }

  lemma FinalBlogStage(w: World, path: Path, job: BlogJob)
    requires BlogsIndexed(w.db) && path in w.files && path != []
    ensures var w' := BlogStage(w, path, job, BLOG_STAGES);
      if FindBlog(w.db, job.slug).Some? && !Accepts(w.db, job) then w' == w else BlogDone(w, w', path, job)
  {
    if FindBlog(w.db, job.slug).None? {
      CreateFollows(w.db, job);
    } else if Accepts(w.db, job) {
      UpdateFollows(w.db, job);
    }
    assert [job.slug][..1] == [job.slug];
  }

  /** A steady folder's manifest changes nothing. */
  lemma SteadyUnchanged(w: World, path: Path, job: BlogJob)
    requires BlogsIndexed(w.db) && path in w.files && |path| == 2 && path[0] == job.slug && [job.slug] in w.dirs
    requires JobSteady(w.db, path, job)
    ensures BlogStage(w, path, job, BLOG_STAGES) == w
  {
    assert Parent(path) == [job.slug] && [job.slug][..1] == [job.slug];
    if FindBlog(w.db, job.slug).Some? {
      FindBlogFacts(w.db, job.slug);
      var blog := FindBlog(w.db, job.slug).value;
      if Accepts(w.db, job) {
        assert Apply(w.db, RenameBlog(UpdateParams(job, blog.id))).blogs == w.db.blogs;
      }
    }
  }

  // ---- one calm seedBlog leaves the other manifests as they were ----

  /** What a calm seedBlog on a path does. */
  ghost predicate CalmBlog(formats: Formats, w: World, w': World, path: Path)
    requires path != []
  {
    var plan := BlogPlan(formats, w, path);
    if plan.None? || (FindBlog(w.db, plan.value.slug).Some? && !Accepts(w.db, plan.value)) then w' == w
    else BlogDone(w, w', path, plan.value)
  }

  lemma AcceptsSame(db: Db, db': Db, job: BlogJob)
    requires BlogsIndexed(db) && BlogsIndexed(db') && db.users == db'.users
    requires match (FindBlog(db, job.slug), FindBlog(db', job.slug))
      case (Some(b), Some(c)) => b.ownerId == c.ownerId
      case (None, None) => true
      case _ => false
    ensures Accepts(db, job) <==> Accepts(db', job)
  {
    if FindBlog(db, job.slug).Some? {
      FindBlogFacts(db, job.slug);
      FindBlogFacts(db', job.slug);
      OnlyHolder(db, FindBlog(db, job.slug).value.id, job.slug);
      OnlyHolder(db', FindBlog(db', job.slug).value.id, job.slug);
    } else {
      NoHolder(db, job.slug);
      NoHolder(db', job.slug);
    }
  }

  lemma OnlyHolder(db: Db, id: int, slug: string)
    requires BlogsIndexed(db) && HasSlug(db, id, slug)
    ensures SlugFree(db.blogs, slug, id)
  {
    forall i | i in db.blogs && !db.blogs[i].deleted && db.blogs[i].slug == slug ensures i == id {
      assert HasSlug(db, i, slug);
    }
  }

  lemma NoHolder(db: Db, slug: string)
    requires FindBlog(db, slug).None?
    ensures SlugFree(db.blogs, slug, 0)
  {
    forall i | i in db.blogs && !db.blogs[i].deleted && db.blogs[i].slug == slug ensures false {
      assert HasSlug(db, i, slug);
    }
  }

  /** The row of any slug keeps its owner, and none disappears. */
  lemma RowsStay(w: World, w': World, path: Path, job: BlogJob, slug: string)
    requires path in w.files && path != [] && BlogDone(w, w', path, job)
    ensures FindBlog(w.db, slug).Some? ==>
      FindBlog(w'.db, slug).Some? && FindBlog(w'.db, slug).value.ownerId == FindBlog(w.db, slug).value.ownerId
    ensures slug != job.slug ==> FindBlog(w'.db, slug) == FindBlog(w.db, slug)
  {
  }

  lemma LooseSteadyStays(formats: Formats, w: World, w': World, path: Path, job: BlogJob, name: string)
    requires path in w.files && path != [] && BlogDone(w, w', path, job)
    requires path != [name] && LooseSteady(formats, w, name)
    ensures LooseSteady(formats, w', name)
  {
    var plan := BlogPlan(formats, w, [name]);
    assert Home(job) != [name];
    assert BlogPlan(formats, w', [name]) == plan;
    if plan.Some? {
      RowsStay(w, w', path, job, plan.value.slug);
      AcceptsSame(w.db, w'.db, plan.value);
    }
  }

  lemma FolderSteadyStays(formats: Formats, w: World, w': World, path: Path, job: BlogJob, dir: string)
    requires path in w.files && path != [] && BlogDone(w, w', path, job)
    requires (|path| == 1 || path[0] != dir) && dir != job.slug
    ensures FirstManifest(w'.files, dir) == FirstManifest(w.files, dir)
    ensures OwnNamedDir(formats, w, dir) ==> OwnNamedDir(formats, w', dir)
    ensures FolderSteady(formats, w, dir) ==> FolderSteady(formats, w', dir)
  {
    assert Home(job)[0] != dir;
    var q := FirstManifest(w.files, dir);
    if FolderSteady(formats, w, dir) && q.Some? && BlogPlan(formats, w, q.value).Some? {
      var plan := BlogPlan(formats, w, q.value).value;
      assert BlogPlan(formats, w', q.value) == Some(plan);
      AcceptsSame(w.db, w'.db, plan);
    }
  }

  /** The folder a manifest ends up in is settled, whoever seeds it next. */
  lemma HomeSteady(formats: Formats, w: World, w': World, path: Path, job: BlogJob)
    requires path in w.files && path != [] && BlogDone(w, w', path, job)
    requires BlogPlan(formats, w, path) == Some(job)
    requires |path| == 1 || FirstManifest(w.files, job.slug) == Some(path)
    ensures OwnNamedDir(formats, w', job.slug)
    ensures FolderSteady(formats, w', job.slug)
    ensures [job.slug] in w.dirs || |path| == 1 ==> [job.slug] in w'.dirs
    ensures Accepts(w.db, job) ==> FindBlog(w'.db, job.slug).Some?
  {
    var moved := FindBlog(w.db, job.slug).None? || Parent(path) != [job.slug];
    if moved {
      assert FirstManifest(w'.files, job.slug) == Some(Home(job));
      assert w'.files[Home(job)] == w.files[path];
      assert BlogPlan(formats, w', Home(job)) == Some(job);
    } else {
      assert BlogPlan(formats, w', path) == Some(job);
    }
    if FindBlog(w'.db, job.slug).None? {
      AcceptsSame(w.db, w'.db, job);
    }
  }

  // ---- the two passes ----

  /** A slug the loose pass has recorded as done. */
  ghost predicate Recorded(formats: Formats, w: World, slug: string) {
    FindBlog(w.db, slug).Some? && FolderSteady(formats, w, slug)
  }

  ghost predicate AllRecorded(formats: Formats, w: World, done: set<string>) {
    forall slug :: slug in done ==> Recorded(formats, w, slug)
  }

  ghost predicate LooseBlogPass(
      formats: Formats, w0: World, w: World, ext: string, rest: seq<string>, done: set<string>)
  {
    && OwnNamed(formats, w)
    && (forall name :: EndsWith(name, ext) ==> name in rest || LooseSteady(formats, w, name))
    && (forall name :: LooseSteady(formats, w0, name) ==> LooseSteady(formats, w, name))
    && AllRecorded(formats, w, done)
  }

  lemma OwnNamedStays(formats: Formats, w: World, w': World, path: Path, job: BlogJob)
    requires OwnNamed(formats, w) && path in w.files && path != [] && BlogDone(w, w', path, job)
    requires BlogPlan(formats, w, path) == Some(job)
    requires |path| == 1 || FirstManifest(w.files, job.slug) == Some(path)
    ensures OwnNamed(formats, w')
  {
    forall d | [d] in w'.dirs ensures OwnNamedDir(formats, w', d) {
      if d == job.slug {
        HomeSteady(formats, w, w', path, job);
      } else {
        assert [d] in w.dirs;
        FolderSteadyStays(formats, w, w', path, job, d);
      }
    }
  }

  lemma RecordedStays(formats: Formats, w: World, w': World, path: Path, job: BlogJob, slug: string)
    requires |path| == 1 && path in w.files && BlogDone(w, w', path, job)
    requires BlogPlan(formats, w, path) == Some(job)
    requires Recorded(formats, w, slug)
    ensures Recorded(formats, w', slug)
  {
    RowsStay(w, w', path, job, slug);
    if slug == job.slug {
      HomeSteady(formats, w, w', path, job);
    } else {
      FolderSteadyStays(formats, w, w', path, job, slug);
    }
  }

  lemma LooseBlogStep(
      formats: Formats, w0: World, w: World, w': World, ext: string, rest: seq<string>, done: set<string>)
    requires rest != [] && LooseBlogPass(formats, w0, w, ext, rest, done)
    requires IsManifestName(rest[0]) && CalmBlog(formats, w, w', [rest[0]])
    ensures LooseBlogPass(formats, w0, w', ext, rest[1..],
      if AcceptsAt(formats, w, [rest[0]]) then done + {BlogPlan(formats, w, [rest[0]]).value.slug} else done)
  {
    var path := [rest[0]];
    var plan := BlogPlan(formats, w, path);
    if LooseSteady(formats, w, rest[0]) {
      assert w' == w;
    } else {
      var job := plan.value;
      OwnNamedStays(formats, w, w', path, job);
      HomeSteady(formats, w, w', path, job);
      assert path !in w'.files;
      forall name | LooseSteady(formats, w, name) ensures LooseSteady(formats, w', name) {
        if name != rest[0] {
          assert path != [name];
          LooseSteadyStays(formats, w, w', path, job, name);
        }
      }
      forall slug | slug in done ensures Recorded(formats, w', slug) {
        RecordedStays(formats, w, w', path, job, slug);
      }
    }
  }

  ghost predicate FolderBlogPass(formats: Formats, w: World, rest: seq<string>, done: set<string>) {
    && OwnNamed(formats, w)
    && (forall d :: [d] in w.dirs ==> d in rest || FolderSteady(formats, w, d))
    && (forall d :: d in rest ==> [d] in w.dirs)
    && (forall d :: d in done ==> FolderSteady(formats, w, d))
    && (forall name :: IsManifestName(name) ==> LooseSteady(formats, w, name))
  }

  /** When the loose manifests of both extensions are done. */
  ghost predicate RoundOne(formats: Formats, w: World, done: set<string>) {
    && OwnNamed(formats, w)
    && (forall name :: IsManifestName(name) ==> LooseSteady(formats, w, name))
    && AllRecorded(formats, w, done)
  }

  lemma RoundOneDone(formats: Formats, w0: World, w1: World, w2: World, done1: set<string>, done2: set<string>)
    requires LooseBlogPass(formats, w0, w1, ".yml", [], done1) && LooseBlogPass(formats, w1, w2, ".yaml", [], done2)
    ensures RoundOne(formats, w2, done2)
  {
    forall name | IsManifestName(name) ensures LooseSteady(formats, w2, name) {
      if EndsWith(name, ".yml") {
        assert LooseSteady(formats, w1, name);
      }
    }
  }

  lemma FolderBlogStart(formats: Formats, w: World, done: set<string>, entries: seq<string>)
    requires RoundOne(formats, w, done)
    requires forall d :: d in entries <==> d in SubDirs(w.dirs, [])
    ensures FolderBlogPass(formats, w, entries, done)
  {
    forall d ensures [d] in w.dirs <==> d in entries {
      InListing(w, [], d);
      assert [] + [d] == [d];
    }
  }

  lemma PostsUntouched(w: World, path: Path, job: BlogJob, k: nat)
    requires path in w.files && path != []
    ensures BlogStage(w, path, job, k).db.posts == w.db.posts && BlogStage(w, path, job, k).origin == w.origin
    ensures BlogStage(w, path, job, k).db.users == w.db.users
  {
    ApplyKeepsPosts(w.db, InsertBlog(CreateParams(job)));
    if FindBlog(w.db, job.slug).Some? {
      ApplyKeepsPosts(w.db, RenameBlog(UpdateParams(job, FindBlog(w.db, job.slug).value.id)));
    }
  }

  lemma ApplyKeepsPosts(db: Db, s: Statement)
    requires s.InsertBlog? || s.RenameBlog?
    ensures Apply(db, s).posts == db.posts && Apply(db, s).users == db.users
  {
  }

  lemma LooseBlogStart(formats: Formats, w: World, ext: string, glob: seq<string>, done: set<string>)
    requires forall name :: name in glob <==> name in Glob(w.files, w.dirs, [], ext)
    requires OwnNamed(formats, w) && AllRecorded(formats, w, done)
    ensures LooseBlogPass(formats, w, w, ext, glob, done)
  {
    forall name | EndsWith(name, ext) && name !in glob ensures LooseSteady(formats, w, name) {
      InListing(w, [], name);
      assert [] + [name] == [name];
    }
  }

  /** A folder that was recorded, or has no manifest, needs nothing. */
  lemma FolderBlogSkip(formats: Formats, w: World, rest: seq<string>, done: set<string>)
    requires rest != [] && FolderBlogPass(formats, w, rest, done)
    requires rest[0] in done || FirstManifest(w.files, rest[0]).None?
    ensures FolderBlogPass(formats, w, rest[1..], done)
  {
  }

  lemma FolderBlogStep(formats: Formats, w: World, w': World, rest: seq<string>, done: set<string>, q: Path)
    requires rest != [] && FolderBlogPass(formats, w, rest, done)
    requires FirstManifest(w.files, rest[0]) == Some(q) && CalmBlog(formats, w, w', q) && BlogsIndexed(w.db)
    ensures FolderBlogPass(formats, w', rest[1..], done)
  {
    var dir := rest[0];
    assert dir in rest;
    if w' == w {
      assert FolderSteady(formats, w, dir);
    } else {
      OwnSlug(formats, w, dir, q);
      OthersSteady(formats, w, w', q, BlogPlan(formats, w, q).value);
    }
  }

  lemma OwnSlug(formats: Formats, w: World, dir: string, q: Path)
    requires OwnNamed(formats, w) && [dir] in w.dirs && FirstManifest(w.files, dir) == Some(q)
    ensures q in w.files && |q| == 2
    ensures BlogPlan(formats, w, q).Some? ==> BlogPlan(formats, w, q).value.slug == dir
  {
    assert OwnNamedDir(formats, w, dir);
  }

  /** A folder's own manifest settles the folder, and unsettles nothing else. */
  lemma OthersSteady(formats: Formats, w: World, w': World, q: Path, job: BlogJob)
    requires OwnNamed(formats, w) && q in w.files && |q| == 2 && BlogDone(w, w', q, job)
    requires BlogPlan(formats, w, q) == Some(job) && FirstManifest(w.files, job.slug) == Some(q)
    ensures OwnNamed(formats, w') && FolderSteady(formats, w', job.slug)
    ensures forall name :: LooseSteady(formats, w, name) ==> LooseSteady(formats, w', name)
    ensures forall d :: d != job.slug && FolderSteady(formats, w, d) ==> FolderSteady(formats, w', d)
  {
    OwnNamedStays(formats, w, w', q, job);
    HomeSteady(formats, w, w', q, job);
    forall name | LooseSteady(formats, w, name) ensures LooseSteady(formats, w', name) {
      LooseSteadyStays(formats, w, w', q, job, name);
    }
    forall d | d != job.slug && FolderSteady(formats, w, d) ensures FolderSteady(formats, w', d) {
      assert q[0] == job.slug;
      FolderSteadyStays(formats, w, w', q, job, d);
    }
  }

  lemma FolderBlogEnd(formats: Formats, w: World, done: set<string>)
    requires FolderBlogPass(formats, w, [], done)
    ensures BlogsSettled(formats, w)
  {
  }

  /** Seeding posts does not unsettle the manifests. */
  lemma BlogsStaySettled(formats: Formats, w: World, w': World)
    requires BlogsSettled(formats, w) && OnlyPosts(w, w') && PostsGrow(w, w')
    ensures BlogsSettled(formats, w')
  {
    forall slug ensures FindBlog(w'.db, slug) == FindBlog(w.db, slug) {
      FindOthers(w.db, w'.db, slug);
    }
    forall name | IsManifestName(name) ensures LooseSteady(formats, w', name) {
      assert LooseSteady(formats, w, name);
      NotMd(name);
      PlanCarries(formats, w, w', [name]);
    }
    forall d | [d] in w'.dirs ensures OwnNamedDir(formats, w', d) && FolderSteady(formats, w', d) {
      assert [d] in w.dirs && OwnNamedDir(formats, w, d) && FolderSteady(formats, w, d);
      NotMd("blog.yml");
      NotMd("blog.yaml");
      PlanCarries(formats, w, w', [d, "blog.yml"]);
      PlanCarries(formats, w, w', [d, "blog.yaml"]);
    }
  }

  lemma NotMd(name: string)
    requires IsManifestName(name) || name == "blog.yml" || name == "blog.yaml"
    ensures !EndsWith(name, ".md")
  {
    if EndsWith(name, ".md") {
      if EndsWith(name, ".yml") {
        SuffixOfSuffix(name, ".md", ".yml");
      } else if EndsWith(name, ".yaml") {
        SuffixOfSuffix(name, ".md", ".yaml");
      }
    }
  }

  lemma PlanCarries(formats: Formats, w: World, w': World, path: Path)
    requires OnlyPosts(w, w') && PostsGrow(w, w') && path != [] && !IsMd(path)
    requires forall slug :: FindBlog(w'.db, slug) == FindBlog(w.db, slug)
    ensures SameAt(w, w', path) && BlogPlan(formats, w', path) == BlogPlan(formats, w, path)
    ensures forall job :: Accepts(w'.db, job) <==> Accepts(w.db, job)
  {
    forall job ensures Accepts(w'.db, job) <==> Accepts(w.db, job) {
      AcceptsSame(w.db, w'.db, job);
    }
  }
}
