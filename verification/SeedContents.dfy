/**
 What the seeder's rows say, in terms of the files themselves: the front matter of a post as it was parsed, and the
 YAML of a manifest as it was written.
 */
module SeedContents {
  import opened Prelude
  import opened Slug
  import opened PublicId
  import opened Database
  import opened SeedWorld
  import opened SeedSettled
  import opened BlogSettled
  import opened SeedRun
  import opened SeedStill

  // ---- posts ----

  /** The one new row says what the file does, and is the row of its folder's blog and that blog's owner. */
  ghost predicate PostFollows(formats: Formats, w: World, w': World, path: Path, id: string)
    requires path in w.files && path != []
  {
    && w'.db.posts.Keys == w.db.posts.Keys + {id} && id !in w.db.posts
    && (forall other :: other in w.db.posts ==> w'.db.posts[other] == w.db.posts[other])
    && w'.db.posts[id].publicId == id && !w'.db.posts[id].deleted
    && HasSlug(w.db, w'.db.posts[id].blogId, path[0]) && ByOwner(w.db, w'.db.posts[id])
    && RowSays(formats, w'.db.posts[id], w.files[path].text)
  }

  /** However far seeding a post gets. */
  lemma EffectFollows(formats: Formats, w: World, e: Effect)
    requires BlogsIndexed(w.db) && Legal(formats, w, e) && e.PostEffect?
    ensures e.path in w.files && PostFollows(formats, w, After(formats, w, e), e.path, e.publicId)
  {
    PostStageFields(formats, w, e);
    PlanFacts(formats, w, e.path, e.job);
    PlanSays(formats, w, e.path, e.job, e.publicId);
  }

  /** The file has front matter with a title and no date that cannot be read, in a folder named by a live blog. */
  ghost predicate IsPostable(formats: Formats, w: World, path: Path)
    requires path != []
  {
    && path in w.files
    && ValidSlug(path[0]) && (exists id :: HasSlug(w.db, id, path[0]))
    && formats.frontmatter(w.files[path].text).Some?
    && var fm := formats.frontmatter(w.files[path].text).value.0;
       fm.title != "" && (fm.publishedAt.Some? ==> exists at :: IsDate(formats, fm.publishedAt.value, at))
  }

  lemma PostableIff(formats: Formats, w: World, path: Path)
    requires BlogsIndexed(w.db) && path != []
    ensures Plan(formats, w, path).Some? <==> IsPostable(formats, w, path)
  {
    if IsPostable(formats, w, path) {
      var fm := formats.frontmatter(w.files[path].text).value.0;
      if fm.publishedAt.Some? {
        var at :| IsDate(formats, fm.publishedAt.value, at);
        assert ParseDate(formats, fm.publishedAt.value) == Some(at);
      }
    }
    if Plan(formats, w, path).Some? {
      var fm := formats.frontmatter(w.files[path].text).value.0;
      if fm.publishedAt.Some? {
        assert IsDate(formats, fm.publishedAt.value, ParseDate(formats, fm.publishedAt.value).value);
      }
    }
  }

  // ---- blogs ----

  /** The row says what the manifest does; what the manifest leaves out is public, and open. */
  ghost predicate BlogSays(formats: Formats, users: map<string, int>, row: Blog, text: string) {
    formats.yaml(text).Some? &&
      var m := formats.yaml(text).value;
      && m.owner in users && row.ownerId == users[m.owner]
      && row.title == m.title && row.slug == Slugify(m.title) && row.description == Some(m.description)
      && row.visibility == (if m.visibility == "" then "public" else m.visibility)
      && row.registrationMode == (if m.registrationMode == "" then "open" else m.registrationMode)
      && row.registrationLimit == m.registrationLimit
      && !row.deleted
  }

  /** A known blog of the manifest's slug and owner gets the manifest's title and description, and keeps the rest. */
  ghost predicate IsRetitled(formats: Formats, users: map<string, int>, row: Blog, row': Blog, text: string) {
    formats.yaml(text).Some? &&
      var m := formats.yaml(text).value;
      && m.owner in users && row.ownerId == users[m.owner] && row.slug == Slugify(m.title) && !row.deleted
      && row' == row.(title := m.title, description := Some(m.description))
  }

  /** What becomes of the rows of blogs: at most one is new or retitled, as the manifest says. */
  ghost predicate RowsFollow(formats: Formats, db: Db, db': Db, text: string) {
    && db.blogs.Keys <= db'.blogs.Keys
    && forall id :: id in db'.blogs ==>
         if id in db.blogs then
           db'.blogs[id] == db.blogs[id] || IsRetitled(formats, db.users, db.blogs[id], db'.blogs[id], text)
         else BlogSays(formats, db.users, db'.blogs[id], text)
  }

  /** All that seeding a manifest does to the rows. */
  ghost predicate BlogsFollow(formats: Formats, w: World, w': World, path: Path)
    requires path in w.files
  {
    w'.db.posts == w.db.posts && w'.db.users == w.db.users && RowsFollow(formats, w.db, w'.db, w.files[path].text)
  }

  lemma InsertFollows(formats: Formats, w: World, path: Path, job: BlogJob)
    requires BlogsIndexed(w.db) && BlogPlan(formats, w, path) == Some(job)
    ensures RowsFollow(formats, w.db, Apply(w.db, InsertBlog(CreateParams(job))), w.files[path].text)
  {
  }

  lemma RenameFollows(formats: Formats, w: World, path: Path, job: BlogJob, id: int)
    requires BlogPlan(formats, w, path) == Some(job) && HasSlug(w.db, id, job.slug)
    ensures RowsFollow(formats, w.db, Apply(w.db, RenameBlog(UpdateParams(job, id))), w.files[path].text)
  {
  }

  /** However far seeding a manifest gets. */
  lemma StageFollows(formats: Formats, w: World, path: Path, job: BlogJob, k: nat)
    requires BlogsIndexed(w.db) && path != [] && BlogPlan(formats, w, path) == Some(job)
    ensures path in w.files && BlogsFollow(formats, w, BlogStage(w, path, job, k), path)
  {
    PostsUntouched(w, path, job, k);
    InsertFollows(formats, w, path, job);
    if FindBlog(w.db, job.slug).Some? {
      FindBlogFacts(w.db, job.slug);
      RenameFollows(formats, w, path, job, FindBlog(w.db, job.slug).value.id);
    }
  }

  /** The manifest's row is there, and says what it asks for. */
  ghost predicate HasItsRow(formats: Formats, w: World, w': World, path: Path)
    requires path in w.files
  {
    exists id :: id in w'.db.blogs && !w'.db.blogs[id].deleted &&
      if id in w.db.blogs then IsRetitled(formats, w.db.users, w.db.blogs[id], w'.db.blogs[id], w.files[path].text)
      else BlogSays(formats, w.db.users, w'.db.blogs[id], w.files[path].text)
  }

  /** A manifest that is accepted has its row in the end, and one that is not changes none. */
  lemma AcceptedHasRow(formats: Formats, w: World, path: Path)
    requires BlogsIndexed(w.db) && path != []
    ensures AcceptsAt(formats, w, path) ==> path in w.files && HasItsRow(formats, w, Whole(formats, w, path), path)
    ensures !AcceptsAt(formats, w, path) ==> Whole(formats, w, path).db == w.db
  {
    if AcceptsAt(formats, w, path) {
      var job := BlogPlan(formats, w, path).value;
      var w' := Whole(formats, w, path);
      if FindBlog(w.db, job.slug).Some? {
        FindBlogFacts(w.db, job.slug);
        var id := FindBlog(w.db, job.slug).value.id;
        assert IsRetitled(formats, w.db.users, w.db.blogs[id], w'.db.blogs[id], w.files[path].text);
      } else {
        assert BlogSays(formats, w.db.users, w'.db.blogs[w.db.nextBlog], w.files[path].text);
      }
    }
  }

  /** The manifest has a title with a valid slug, and an owner who is a user. */
  ghost predicate IsFollowable(formats: Formats, w: World, path: Path) {
    && path in w.files
    && formats.yaml(w.files[path].text).Some?
    && var m := formats.yaml(w.files[path].text).value;
       m.title != "" && m.owner != "" && m.owner in w.db.users && ValidSlug(Slugify(m.title))
  }

  lemma FollowableIff(formats: Formats, w: World, path: Path)
    ensures BlogPlan(formats, w, path).Some? <==> IsFollowable(formats, w, path)
  {
  }
}
