/**
 When a run has nothing to do, exactly: seeding manifests one after the other leaves everything as it is if and only
 if none of them has work of its own. A manifest that is moved goes to the place its text names, and nothing moves it
 back; a row that is changed is changed again only by a manifest that is moved.
 */
module SeedStill {
  import opened Prelude
  import opened Slug
  import opened Database
  import opened SeedWorld
  import opened SeedSettled
  import opened BlogSettled
  import opened SeedRun

  /** The world after seeding one manifest to the end. */
  ghost function Whole(formats: Formats, w: World, path: Path): World
    requires path != []
  {
    match BlogPlan(formats, w, path)
    case None => w
    case Some(job) => BlogStage(w, path, job, BLOG_STAGES)
  }

  /**
   Seeding the manifest would change nothing: it cannot be followed, or it lies in its blog's folder and its row says
   the same already.
   */
  ghost predicate HasNoWork(formats: Formats, w: World, path: Path)
    requires path != []
  {
    var plan := BlogPlan(formats, w, path);
    plan.None? ||
      match FindBlog(w.db, plan.value.slug)
      case Some(blog) => !Accepts(w.db, plan.value) || (Parent(path) == [plan.value.slug] && Says(blog, plan.value))
      case None => path == Home(plan.value) && !Accepts(w.db, plan.value)
  }

  predicate Says(blog: Blog, job: BlogJob) {
    blog.title == job.manifest.title && blog.description == Some(job.manifest.description)
  }

  /** No manifest that the seeder looks at has work. */
  ghost predicate ManifestsStill(formats: Formats, w: World) {
    forall path :: IsLookedAt(w, path) ==> HasNoWork(formats, w, path)
  }

  ghost predicate NothingToDo(formats: Formats, w: World) {
    ManifestsStill(formats, w) && PostsSettled(formats, w)
  }

  lemma SettledIsStill(formats: Formats, w: World)
    requires BlogsSettled(formats, w)
    ensures ManifestsStill(formats, w)
  {
    forall path | IsLookedAt(w, path) ensures HasNoWork(formats, w, path) {
      if |path| == 1 {
        assert path == [path[0]] && LooseSteady(formats, w, path[0]);
      } else {
        LookedAtInFolder(w, path);
        assert FolderSteady(formats, w, path[0]);
      }
    }
  }

  // ---- one manifest ----

  /** The file lies where its own text wants it. */
  ghost predicate AtHome(formats: Formats, f: File, p: Path) {
    var m := ParseManifest(formats, f.text);
    m.Some? && p == [Slugify(m.value.title), "blog.yml"]
  }

  /** Every file but the posts is where it was, or at home. */
  ghost predicate CameHome(formats: Formats, w: World, w': World) {
    forall p :: p in w'.files && !IsMd(p) ==> Holds(w, p, w'.files[p]) || AtHome(formats, w'.files[p], p)
  }

  /** A file that was not at home has left its place. */
  ghost predicate HasLeft(formats: Formats, w: World, w': World) {
    exists p :: p in w.files && !IsMd(p) && !AtHome(formats, w.files[p], p) && !Holds(w', p, w.files[p])
  }

  ghost predicate RowChanged(w: World, w': World, slug: string) {
    FindBlog(w'.db, slug) != FindBlog(w.db, slug)
  }

  lemma CameHomeTrans(formats: Formats, a: World, b: World, c: World)
    requires CameHome(formats, a, b) && CameHome(formats, b, c)
    ensures CameHome(formats, a, c)
  {
    forall p | p in c.files && !IsMd(p) ensures Holds(a, p, c.files[p]) || AtHome(formats, c.files[p], p) {
      assert Holds(b, p, c.files[p]) || AtHome(formats, c.files[p], p);
    }
  }

  /** It does not come back. */
  lemma LeftForGood(formats: Formats, a: World, b: World, c: World)
    requires HasLeft(formats, a, b) && CameHome(formats, b, c)
    ensures HasLeft(formats, a, c)
  {
    var p :| p in a.files && !IsMd(p) && !AtHome(formats, a.files[p], p) && !Holds(b, p, a.files[p]);
    assert !Holds(c, p, a.files[p]);
  }

  lemma LeftBefore(formats: Formats, a: World, b: World, c: World)
    requires CameHome(formats, a, b) && HasLeft(formats, b, c)
    ensures HasLeft(formats, a, c)
  {
    var p :| p in b.files && !IsMd(p) && !AtHome(formats, b.files[p], p) && !Holds(c, p, b.files[p]);
    assert Holds(a, p, b.files[p]);
  }

  lemma PlanNamesHome(formats: Formats, w: World, path: Path)
    requires BlogPlan(formats, w, path).Some?
    ensures path in w.files && AtHome(formats, w.files[path], Home(BlogPlan(formats, w, path).value))
  {
  }

  lemma WholeComesHome(formats: Formats, w: World, path: Path)
    requires path != []
    ensures CameHome(formats, w, Whole(formats, w, path))
  {
    if BlogPlan(formats, w, path).Some? {
      PlanNamesHome(formats, w, path);
      BlogStageFields(w, path, BlogPlan(formats, w, path).value, BLOG_STAGES);
    }
  }

  lemma NoWorkNoChange(formats: Formats, w: World, path: Path)
    requires TreeOk(w) && BlogsIndexed(w.db) && path != [] && HasNoWork(formats, w, path)
    ensures Whole(formats, w, path) == w
  {
    var plan := BlogPlan(formats, w, path);
    if plan.Some? && FindBlog(w.db, plan.value.slug).Some? && Accepts(w.db, plan.value) {
      InPlace(w, path, plan.value);
      SteadyUnchanged(w, path, plan.value);
    } else if plan.Some? && FindBlog(w.db, plan.value.slug).None? {
      InPlace(w, path, plan.value);
    }
  }

  lemma InPlace(w: World, path: Path, job: BlogJob)
    requires TreeOk(w) && path in w.files && path != [] && Parent(path) == [job.slug]
    ensures |path| == 2 && path[0] == job.slug && [job.slug] in w.dirs
    ensures MakeDir(w, [job.slug]) == w && Move(w, path, path) == w
  {
    assert |Parent(path)| == 1 && [job.slug][..1] == [job.slug];
    assert Move(w, path, path).files == w.files;
    assert w.dirs + {[job.slug], [job.slug]} == w.dirs;
  }

  /** Work leaves a trace: a file that was not at home leaves its place, or the folder's own row changes. */
  lemma WorkShows(formats: Formats, w: World, path: Path)
    requires TreeOk(w) && BlogsIndexed(w.db) && IsManifestPath(path) && !HasNoWork(formats, w, path)
    ensures var w' := Whole(formats, w, path);
      HasLeft(formats, w, w') || (|path| == 2 && RowChanged(w, w', path[0]))
  {
    var job, w' := BlogPlan(formats, w, path).value, Whole(formats, w, path);
    ManifestIsNoPost(path);
    PlanNamesHome(formats, w, path);
    FinalBlogStage(w, path, job);
    if path != Home(job) && (FindBlog(w.db, job.slug).None? || Parent(path) != [job.slug]) {
      assert !Holds(w', path, w.files[path]);
    } else {
      assert Parent(path) == [job.slug];
      InPlace(w, path, job);
    }
  }

  /** Seeding a manifest changes no row but that of its slug. */
  lemma OtherRowsStay(formats: Formats, w: World, path: Path, slug: string)
    requires BlogsIndexed(w.db) && path != []
    requires BlogPlan(formats, w, path).Some? ==> BlogPlan(formats, w, path).value.slug != slug
    ensures !RowChanged(w, Whole(formats, w, path), slug)
  {
    if BlogPlan(formats, w, path).Some? {
      FinalBlogStage(w, path, BlogPlan(formats, w, path).value);
    }
  }

  /** Only a manifest in the folder of that name changes a row and leaves every file. */
  lemma RowStaysChanged(formats: Formats, w0: World, w: World, path: Path, slug: string)
    requires TreeOk(w) && BlogsIndexed(w.db) && IsManifestPath(path) && (|path| == 2 ==> path[0] != slug)
    requires RowChanged(w0, w, slug)
    ensures var w' := Whole(formats, w, path); HasLeft(formats, w, w') || RowChanged(w0, w', slug)
  {
    if HasNoWork(formats, w, path) {
      NoWorkNoChange(formats, w, path);
    } else if BlogPlan(formats, w, path).value.slug != slug {
      OtherRowsStay(formats, w, path, slug);
    } else {
      WorkShowsElsewhere(formats, w, path, slug);
    }
  }

  lemma WorkShowsElsewhere(formats: Formats, w: World, path: Path, slug: string)
    requires TreeOk(w) && BlogsIndexed(w.db) && IsManifestPath(path) && !HasNoWork(formats, w, path)
    requires BlogPlan(formats, w, path).value.slug == slug && (|path| == 2 ==> path[0] != slug)
    ensures HasLeft(formats, w, Whole(formats, w, path))
  {
    WorkShows(formats, w, path);
    if |path| == 2 { OtherRowsStay(formats, w, path, path[0]); }
  }

  // ---- the loose manifests ----

  ghost predicate LooseStill(formats: Formats, w: World, ext: string, rest: seq<string>) {
    forall name :: EndsWith(name, ext) ==> name in rest || HasNoWork(formats, w, [name])
  }

  /** A pass so far: it has found no work and done none, or a file has left its place. */
  ghost predicate LooseVisited(
      formats: Formats, w0: World, w: World, ext: string, rest: seq<string>, done0: set<string>, done: set<string>)
  {
    && CameHome(formats, w0, w)
    && ((w == w0 && done == done0 && LooseStill(formats, w0, ext, rest)) || HasLeft(formats, w0, w))
    && (ManifestsStill(formats, w0) ==> w == w0 && done == done0)
  }

  lemma LooseVisitedStart(formats: Formats, w: World, ext: string, rest: seq<string>, done: set<string>)
    requires forall name :: name in rest <==> name in Glob(w.files, w.dirs, [], ext)
    ensures LooseVisited(formats, w, w, ext, rest, done, done)
  {
    forall name | EndsWith(name, ext) && name !in rest ensures HasNoWork(formats, w, [name]) {
      InListing(w, [], name);
      assert [] + [name] == [name];
    }
  }

  /** A loose manifest without work is not accepted, so it is not recorded either. */
  lemma LooseIsRejected(formats: Formats, w: World, name: string)
    requires HasNoWork(formats, w, [name])
    ensures !AcceptsAt(formats, w, [name])
  {
    assert Parent([name]) == [];
  }

  lemma LooseVisit(
      formats: Formats, w0: World, w: World, ext: string, rest: seq<string>, done0: set<string>, done: set<string>)
    requires InOrder(w) && rest != [] && IsManifestName(rest[0]) && LooseVisited(formats, w0, w, ext, rest, done0, done)
    ensures LooseVisited(formats, w0, Whole(formats, w, [rest[0]]), ext, rest[1..], done0,
      if AcceptsAt(formats, w, [rest[0]]) then done + {BlogPlan(formats, w, [rest[0]]).value.slug} else done)
  {
    var path := [rest[0]];
    var w' := Whole(formats, w, path);
    WholeComesHome(formats, w, path);
    CameHomeTrans(formats, w0, w, w');
    if HasLeft(formats, w0, w) { LeftForGood(formats, w0, w, w'); }
    if HasNoWork(formats, w, path) {
      NoWorkNoChange(formats, w, path);
      LooseIsRejected(formats, w, rest[0]);
    } else {
      WorkShows(formats, w, path);
      LeftBefore(formats, w0, w, w');
      assert IsLookedAt(w, path);
    }
  }

  /** Round one so far. */
  ghost predicate AllLooseVisited(formats: Formats, w0: World, w: World, done: set<string>) {
    && CameHome(formats, w0, w)
    && ((w == w0 && done == {} && NoLooseWork(formats, w0)) || HasLeft(formats, w0, w))
    && (ManifestsStill(formats, w0) ==> w == w0 && done == {})
  }

  ghost predicate NoLooseWork(formats: Formats, w: World) {
    forall name :: IsManifestName(name) ==> HasNoWork(formats, w, [name])
  }

  lemma BothExtensions(formats: Formats, w0: World, w1: World, w2: World, done1: set<string>, done2: set<string>)
    requires LooseVisited(formats, w0, w1, ".yml", [], {}, done1)
    requires LooseVisited(formats, w1, w2, ".yaml", [], done1, done2)
    ensures AllLooseVisited(formats, w0, w2, done2)
  {
    CameHomeTrans(formats, w0, w1, w2);
    if HasLeft(formats, w0, w1) {
      LeftForGood(formats, w0, w1, w2);
    } else if HasLeft(formats, w1, w2) {
      LeftBefore(formats, w0, w1, w2);
    }
  }

  // ---- the manifests in folders ----

  ghost predicate FolderStill(formats: Formats, w: World, dir: string) {
    FirstManifest(w.files, dir).Some? ==> HasNoWork(formats, w, FirstManifest(w.files, dir).value)
  }

  ghost predicate FoldersStill(formats: Formats, w: World, rest: seq<string>) {
    forall d :: [d] in w.dirs ==> d in rest || FolderStill(formats, w, d)
  }

  /** The row of a folder that has been visited is another one now. */
  ghost predicate SomeRowChanged(w0: World, w: World, rest: seq<string>) {
    exists slug :: slug !in rest && RowChanged(w0, w, slug)
  }

  ghost predicate FoldersVisited(formats: Formats, w0: World, w: World, rest: seq<string>, done: set<string>) {
    && CameHome(formats, w0, w)
    && ((w == w0 && done == {} && NoLooseWork(formats, w0) && FoldersStill(formats, w0, rest))
        || HasLeft(formats, w0, w) || SomeRowChanged(w0, w, rest))
    && (ManifestsStill(formats, w0) ==> w == w0 && done == {} && forall d :: d in rest ==> [d] in w0.dirs)
  }

  lemma FoldersVisitedStart(formats: Formats, w0: World, w: World, done: set<string>, entries: seq<string>)
    requires AllLooseVisited(formats, w0, w, done)
    requires forall d :: d in entries <==> d in SubDirs(w.dirs, [])
    ensures FoldersVisited(formats, w0, w, entries, done)
  {
    forall d ensures [d] in w.dirs <==> d in entries {
      InListing(w, [], d);
      assert [] + [d] == [d];
    }
  }

  lemma FolderSkip(formats: Formats, w0: World, w: World, rest: seq<string>, done: set<string>)
    requires rest != [] && FoldersVisited(formats, w0, w, rest, done)
    requires rest[0] in done || FirstManifest(w.files, rest[0]).None?
    ensures FoldersVisited(formats, w0, w, rest[1..], done)
  {
    assert forall d :: d in rest <==> d == rest[0] || d in rest[1..];
  }

  lemma FolderVisit(formats: Formats, w0: World, w: World, rest: seq<string>, done: set<string>, q: Path)
    requires InOrder(w) && rest != [] && rest[0] !in rest[1..] && FoldersVisited(formats, w0, w, rest, done)
    requires FirstManifest(w.files, rest[0]) == Some(q)
    ensures FoldersVisited(formats, w0, Whole(formats, w, q), rest[1..], done)
  {
    var w' := Whole(formats, w, q);
    WholeComesHome(formats, w, q);
    CameHomeTrans(formats, w0, w, w');
    if ManifestsStill(formats, w0) {
      assert IsLookedAt(w0, q);
    }
    FolderTrace(formats, w0, w, rest, q);
    if HasNoWork(formats, w, q) { NoWorkNoChange(formats, w, q); }
  }

  /** What has left its place or changed stays so; and so does what this manifest does. */
  lemma FolderTrace(formats: Formats, w0: World, w: World, rest: seq<string>, q: Path)
    requires InOrder(w) && rest != [] && rest[0] !in rest[1..] && CameHome(formats, w0, w)
    requires FirstManifest(w.files, rest[0]) == Some(q)
    ensures var w' := Whole(formats, w, q);
      (HasLeft(formats, w0, w) || SomeRowChanged(w0, w, rest) || (w == w0 && !HasNoWork(formats, w, q))) ==>
      (HasLeft(formats, w0, w') || SomeRowChanged(w0, w', rest[1..]))
  {
    var w' := Whole(formats, w, q);
    WholeComesHome(formats, w, q);
    if HasLeft(formats, w0, w) {
      LeftForGood(formats, w0, w, w');
    } else if SomeRowChanged(w0, w, rest) {
      var slug :| slug !in rest && RowChanged(w0, w, slug);
      RowStaysChanged(formats, w0, w, q, slug);
      if HasLeft(formats, w, w') { LeftBefore(formats, w0, w, w'); }
    } else if w == w0 && !HasNoWork(formats, w, q) {
      WorkShows(formats, w, q);
    }
  }

  // ---- all of it ----

  /** After seeding all manifests: nothing has changed if and only if there was nothing to do, and change shows. */
  ghost predicate ManifestsVisited(formats: Formats, w0: World, w: World) {
    && (w == w0 <==> ManifestsStill(formats, w0))
    && (w != w0 ==> HasLeft(formats, w0, w) || exists slug :: RowChanged(w0, w, slug))
  }

  lemma FoldersVisitedEnd(formats: Formats, w0: World, w: World, done: set<string>)
    requires FoldersVisited(formats, w0, w, [], done)
    ensures ManifestsVisited(formats, w0, w)
  {
    if w == w0 {
      forall path | IsLookedAt(w0, path) ensures HasNoWork(formats, w0, path) {
        if |path| == 1 {
          assert path == [path[0]];
        } else {
          LookedAtInFolder(w0, path);
          assert FolderStill(formats, w0, path[0]);
        }
      }
    }
  }

  lemma PostsComeHome(formats: Formats, w: World, w': World)
    requires OnlyPosts(w, w')
    ensures CameHome(formats, w, w')
  {
    forall p | p in w'.files && !IsMd(p) ensures Holds(w, p, w'.files[p]) {
      assert SameAt(w, w', p);
    }
  }

  /** Seeding posts afterwards does not hide it. */
  lemma ChangeSurvives(formats: Formats, w0: World, w1: World, w2: World)
    requires ManifestsVisited(formats, w0, w1) && OnlyPosts(w1, w2) && PostsGrow(w1, w2) && w1 != w0
    ensures w2 != w0
  {
    if HasLeft(formats, w0, w1) {
      PostsComeHome(formats, w1, w2);
      LeftForGood(formats, w0, w1, w2);
    } else {
      var slug :| RowChanged(w0, w1, slug);
      FindOthers(w1.db, w2.db, slug);
      assert RowChanged(w0, w2, slug);
    }
  }
}
