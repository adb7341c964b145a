/**
 What the front matter of a file means for the home page and for links: which seeded posts readers are shown, after
 any starts and failures of the seeder and any statements on blogs.
 */
module Published {
  import opened Prelude
  import opened Slug
  import opened Database
  import opened SeedWorld
  import opened SeedRun
  import opened Interleaved
  import Links

  /** The file's front matter asks for the post to be shown by now. */
  ghost predicate AsksToBeShown(formats: Formats, text: string, now: int) {
    formats.frontmatter(text).Some? &&
      var fm := formats.frontmatter(text).value.0;
      && fm.isListed && fm.publishedAt.Some?
      && exists at :: IsDate(formats, fm.publishedAt.value, at) && at <= now
  }

  /** The row was made from the file at this path. */
  ghost predicate IsRowOfFile(w: World, id: string, p: Path) {
    id in w.origin && p in w.files && w.files[p].inode == w.origin[id]
  }

  lemma ShownIff(formats: Formats, w: World, id: string, p: Path, now: int)
    requires WeakInv(formats, w) && IsRowOfFile(w, id, p)
    ensures id in w.db.posts
    ensures Links.IsVisible(w.db, id, now) <==>
      AsksToBeShown(formats, w.files[p].text, now) && IsLive(w.db, w.db.posts[id].blogId)
  {
    HasFile(formats, w, id, p);
    assert RowFiled(formats, w, id);
    var row, fm := w.db.posts[id], formats.frontmatter(w.files[p].text).value.0;
    if fm.publishedAt.Some? {
      OneDate(formats, fm.publishedAt.value, row.publishedAt.value);
    }
  }

  lemma OneDate(formats: Formats, text: string, at: int)
    requires IsDate(formats, text, at)
    ensures forall other :: IsDate(formats, text, other) ==> other == at
  {
  }

  /**
   A seeded post is on the home page exactly when its file is listed and dated no later than now, and its blog is
   there and public; whatever has happened to files, rows and blogs since it was seeded.
   */
  lemma InFeedIff(
      formats: Formats, w0: World, events: seq<Event>, w: World, id: string, p: Path, now: int)
    requires WeakInv(formats, w0) && w == History(formats, w0, events) && IsRowOfFile(w, id, p)
    ensures id in w.db.posts && w.db.posts[id].blogId in w.db.blogs
    ensures var blog := w.db.blogs[w.db.posts[id].blogId];
      Links.InFeed(w.db, id, now) <==>
        AsksToBeShown(formats, w.files[p].text, now) && !blog.deleted && blog.visibility == "public"
  {
    HistoryKeeps(formats, w0, events);
    ShownIff(formats, w, id, p, now);
    assert RowFiled(formats, w, id);
  }

  /** A post from a file that is not listed, or has no date, is never on the home page, nor behind any link. */
  lemma UnlistedIsNeverShown(
      formats: Formats, w0: World, events: seq<Event>, w: World, id: string, p: Path, now: int, fm: Frontmatter)
    requires WeakInv(formats, w0) && w == History(formats, w0, events) && IsRowOfFile(w, id, p)
    requires formats.frontmatter(w.files[p].text).Some? && fm == formats.frontmatter(w.files[p].text).value.0
    requires !fm.isListed || fm.publishedAt.None?
    ensures !Links.InFeed(w.db, id, now)
    ensures forall blogSlug, name :: !Links.Matches(w.db, blogSlug, name, now, id)
  {
    HistoryKeeps(formats, w0, events);
    ShownIff(formats, w, id, p, now);
  }

  /** So every seeded post on a page of the home page is one whose file asks for it. */
  lemma PageShowsListed(formats: Formats, w: World, now: int, offset: nat, limit: nat, page: seq<string>)
    requires WeakInv(formats, w) && Links.IsAnswer(w.db, now, offset, limit, page)
    ensures forall id, p :: id in page && IsRowOfFile(w, id, p) ==> AsksToBeShown(formats, w.files[p].text, now)
  {
    Links.OnPage(w.db, now, offset, limit, page);
    forall id, p | id in page && IsRowOfFile(w, id, p) ensures AsksToBeShown(formats, w.files[p].text, now) {
      ShownIff(formats, w, id, p, now);
      assert Links.InFeed(w.db, id, now);
    }
  }
}
