/**
 The home page's list of posts and the lookup behind its links (GetLatestPublicPosts and GetPostBySlugOrPublicID in
 internal/storage/sqlite/posts.go, the link built in internal/components/index.templ). A post is named by its
 public_id, the key of its row.
 */
module Links {
  import opened Prelude
  import opened Slug
  import opened PublicId
  import opened Database
  import opened Ranking

  /** The conditions both queries share; `now` is CURRENT_TIMESTAMP. */
  predicate IsVisible(db: Db, id: string, now: int) {
    && id in db.posts
    && !db.posts[id].deleted
    && db.posts[id].isListed
    && db.posts[id].publishedAt.Some?
    && db.posts[id].publishedAt.value <= now
    && IsLive(db, db.posts[id].blogId)
    && db.posts[id].authorId in db.users.Values
  }

  predicate InFeed(db: Db, id: string, now: int) {
    IsVisible(db, id, now) && db.blogs[db.posts[id].blogId].visibility == "public"
  }

  function Date(db: Db, id: string): int {
    if id in db.posts && db.posts[id].publishedAt.Some? then db.posts[id].publishedAt.value else 0
  }

  function ByDate(db: Db): string -> int {
    id => Date(db, id)
  }

  /** An arrangement of the whole feed; the query leaves the order of equal dates open. */
  ghost predicate IsFeed(db: Db, now: int, ids: seq<string>) {
    Ranked(ids, ByDate(db)) && NoRepeats(ids) && forall id :: id in ids <==> InFeed(db, id, now)
  }

  ghost predicate IsNoOlder(db: Db, p: string, q: string) {
    && p in db.posts && q in db.posts && db.posts[p].publishedAt.Some? && db.posts[q].publishedAt.Some?
    && db.posts[p].publishedAt.value >= db.posts[q].publishedAt.value
  }

  lemma NewestFirst(db: Db, now: int, feed: seq<string>)
    requires IsFeed(db, now, feed)
    ensures forall i, j :: 0 <= i < j < |feed| ==> IsNoOlder(db, feed[i], feed[j])
  {
    forall i, j | 0 <= i < j < |feed| ensures IsNoOlder(db, feed[i], feed[j]) {
      assert feed[i] in feed && feed[j] in feed;
      assert ByDate(db)(feed[i]) >= ByDate(db)(feed[j]);
    }
  }

  function Least(x: nat, y: nat): nat {
    if x <= y then x else y
  }

  /** LIMIT and OFFSET: what stands in the arrangement after the skipped posts, as many as asked or there are. */
  ghost predicate IsPage(feed: seq<string>, offset: nat, limit: nat, page: seq<string>) {
    exists before, after ::
      && feed == before + page + after
      && |before| == Least(offset, |feed|)
      && |page| == Least(limit, |feed| - |before|)
  }

  lemma SliceIsPage(feed: seq<string>, offset: nat, limit: nat)
    ensures var from := Least(offset, |feed|);
      IsPage(feed, offset, limit, feed[from..from + Least(limit, |feed| - from)])
  {
    var from := Least(offset, |feed|);
    var to := from + Least(limit, |feed| - from);
    assert feed == feed[..from] + feed[from..to] + feed[to..];
  }

  lemma PlaceOnce(ids: seq<string>, id: string, key: string -> int)
    requires Ranked(ids, key) && NoRepeats(ids) && id !in ids
    ensures NoRepeats(Insert(ids, id, key))
    ensures forall x :: x in Insert(ids, id, key) <==> x in ids || x == id
  {
    var r := Insert(ids, id, key);
    SameElements(ids + [id], r);
    StillNoRepeats(ids + [id], r);
  }

  method GetLatestPublicPosts(db: Db, now: int, offset: int, limit: int) returns (r: Result<seq<string>>)
    ensures r.Err? <==> offset < 0 || limit <= 0
    ensures r.Ok? ==> exists feed :: IsFeed(db, now, feed) && IsPage(feed, offset, limit, r.value)
    // the newest come first
    ensures r.Ok? ==> forall i, j :: 0 <= i < j < |r.value| ==> IsNoOlder(db, r.value[i], r.value[j])
  {
    if offset < 0 || limit <= 0 {
      return Err;
    }
    var ids: seq<string> := [];
    var rest := db.posts.Keys;
    while rest != {}
      invariant rest <= db.posts.Keys
      invariant Ranked(ids, ByDate(db)) && NoRepeats(ids)
      invariant forall id :: id in ids <==> InFeed(db, id, now) && id !in rest
      decreases rest
    {
      var id := Pick(rest);
      if InFeed(db, id, now) {
        PlaceOnce(ids, id, ByDate(db));
        ids := Insert(ids, id, ByDate(db));
      }
      rest := rest - {id};
    }
    assert IsFeed(db, now, ids);
    var from := Least(offset, |ids|);
    var to := from + Least(limit, |ids| - from);
    SliceIsPage(ids, offset, limit);
    NewestFirst(db, now, ids);
    return Ok(ids[from..to]);
  }

  // ---- page after page ----

  function Flat(pages: seq<seq<string>>): seq<string> {
    if pages == [] then [] else Flat(pages[..|pages| - 1]) + pages[|pages| - 1]
  }

  /** What k pages ask for. */
  function Asked(k: nat, limit: nat): nat {
    if k == 0 then 0 else Asked(k - 1, limit) + limit
  }

  /** One page after the other, of one arrangement. */
  ghost predicate ArePages(feed: seq<string>, limit: nat, pages: seq<seq<string>>) {
    forall k :: 0 <= k < |pages| ==> IsPage(feed, Asked(k, limit), limit, pages[k])
  }

  lemma PageIsSlice(feed: seq<string>, offset: nat, limit: nat, page: seq<string>)
    requires IsPage(feed, offset, limit, page)
    ensures feed[..Least(offset, |feed|)] + page == feed[..Least(offset + limit, |feed|)]
  {
    var before, after :| feed == before + page + after && |before| == Least(offset, |feed|)
      && |page| == Least(limit, |feed| - |before|);
    assert feed[..|before|] == before;
    assert feed[..|before| + |page|] == before + page;
  }

  lemma LastPage(feed: seq<string>, limit: nat, pages: seq<seq<string>>)
    requires ArePages(feed, limit, pages) && pages != []
    ensures var n := |pages| - 1;
      ArePages(feed, limit, pages[..n]) && IsPage(feed, Asked(n, limit), limit, pages[n])
      && Asked(|pages|, limit) == Asked(n, limit) + limit
  {
    var init := pages[..|pages| - 1];
    assert forall k :: 0 <= k < |init| ==> init[k] == pages[k];
  }

  /** Put together, the pages are the feed as far as they go: none of its posts is left out, none comes twice. */
  lemma {:induction false} PagesTile(feed: seq<string>, limit: nat, pages: seq<seq<string>>)
    requires ArePages(feed, limit, pages)
    ensures Flat(pages) == feed[..Least(Asked(|pages|, limit), |feed|)]
  {
    if pages != [] {
      var init, last := pages[..|pages| - 1], pages[|pages| - 1];
      LastPage(feed, limit, pages);
      PagesTile(feed, limit, init);
      PageIsSlice(feed, Asked(|init|, limit), limit, last);
    }
  }

  /** As many pages as it takes show every post of the feed once. */
  lemma EveryPostOnce(db: Db, now: int, feed: seq<string>, limit: nat, pages: seq<seq<string>>)
    requires IsFeed(db, now, feed) && ArePages(feed, limit, pages) && Asked(|pages|, limit) >= |feed|
    ensures NoRepeats(Flat(pages)) && forall id :: id in Flat(pages) <==> InFeed(db, id, now)
  {
    PagesTile(feed, limit, pages);
    assert feed[..|feed|] == feed;
  }

  /** No two posts of the feed were published at one instant. */
  ghost predicate DatesDiffer(db: Db, now: int) {
    forall p, q :: InFeed(db, p, now) && InFeed(db, q, now) && p != q ==> Date(db, p) != Date(db, q)
  }

  lemma SameRest(a: seq<string>, b: seq<string>)
    requires a != [] && b != [] && a[0] == b[0] && NoRepeats(a) && NoRepeats(b) && forall x :: x in a <==> x in b
    ensures NoRepeats(a[1..]) && NoRepeats(b[1..]) && forall x :: x in a[1..] <==> x in b[1..]
    ensures forall x :: x in a[1..] ==> x in a
  {
    forall x ensures x in a[1..] <==> x in b[1..] {
      assert x in a <==> x == a[0] || x in a[1..];
      assert x in b <==> x == b[0] || x in b[1..];
    }
  }

  lemma SameHead(a: seq<string>, b: seq<string>, key: string -> int)
    requires a != [] && Ranked(a, key) && Ranked(b, key) && forall x :: x in a <==> x in b
    requires forall x, y :: x in a && y in a && x != y ==> key(x) != key(y)
    ensures b != [] && a[0] == b[0]
  {
    assert a[0] in b && b[0] in a;
    var i :| 0 <= i < |b| && b[i] == a[0];
    var j :| 0 <= j < |a| && a[j] == b[0];
    assert key(b[0]) >= key(b[i]) && key(a[0]) >= key(a[j]);
  }

  lemma {:induction false} OneArrangement(a: seq<string>, b: seq<string>, key: string -> int)
    requires Ranked(a, key) && Ranked(b, key) && NoRepeats(a) && NoRepeats(b)
    requires forall x :: x in a <==> x in b
    requires forall x, y :: x in a && y in a && x != y ==> key(x) != key(y)
    ensures a == b
  {
    assert b != [] ==> b[0] in a;
    if a != [] {
      SameHead(a, b, key);
      SameRest(a, b);
      OneArrangement(a[1..], b[1..], key);
      assert a == [a[0]] + a[1..] && b == [b[0]] + b[1..];
    }
  }

  /** Neighbours of one date can change places. */
  lemma SwapIsFeed(db: Db, now: int, feed: seq<string>, i: nat)
    requires IsFeed(db, now, feed) && i + 1 < |feed| && Date(db, feed[i]) == Date(db, feed[i + 1])
    ensures var other := feed[i := feed[i + 1]][i + 1 := feed[i]]; IsFeed(db, now, other) && other != feed
  {
    var other := feed[i := feed[i + 1]][i + 1 := feed[i]];
    assert forall k :: 0 <= k < |feed| ==>
      other[k] == feed[if k == i then i + 1 else if k == i + 1 then i else k];
    assert other[i] == feed[i + 1] && other[i + 1] == feed[i];
    forall id ensures id in other <==> id in feed {
      if id in feed {
        var k :| 0 <= k < |feed| && feed[k] == id;
        assert other[if k == i then i + 1 else if k == i + 1 then i else k] == id;
      }
    }
  }

  /** The query leaves no choice, so that two calls see one arrangement, if and only if the dates differ. */
  lemma OneFeedIff(db: Db, now: int, feed: seq<string>)
    requires IsFeed(db, now, feed)
    ensures (forall other :: IsFeed(db, now, other) ==> other == feed) <==> DatesDiffer(db, now)
  {
    if DatesDiffer(db, now) {
      forall other | IsFeed(db, now, other) ensures other == feed {
        OneArrangement(other, feed, ByDate(db));
      }
    } else {
      var p, q :| InFeed(db, p, now) && InFeed(db, q, now) && p != q && Date(db, p) == Date(db, q);
      var other := SameDateSwaps(db, now, feed, p, q);
    }
  }

  lemma SameDateSwaps(db: Db, now: int, feed: seq<string>, p: string, q: string) returns (other: seq<string>)
    requires IsFeed(db, now, feed) && p in feed && q in feed && p != q && Date(db, p) == Date(db, q)
    ensures IsFeed(db, now, other) && other != feed
  {
    var i, j :| 0 <= i < |feed| && 0 <= j < |feed| && feed[i] == p && feed[j] == q;
    var first, last := if i < j then i else j, if i < j then j else i;
    var key := ByDate(db);
    assert key(feed[first]) >= key(feed[first + 1]) >= key(feed[last]);
    SwapIsFeed(db, now, feed, first);
    other := feed[first := feed[first + 1]][first + 1 := feed[first]];
  }

  ghost predicate IsAnswer(db: Db, now: int, offset: nat, limit: nat, page: seq<string>) {
    exists feed :: IsFeed(db, now, feed) && IsPage(feed, offset, limit, page)
  }

  /** Then page after page, each of a call of its own, shows every post once. */
  lemma CallsTile(db: Db, now: int, feed: seq<string>, limit: nat, pages: seq<seq<string>>)
    requires IsFeed(db, now, feed) && DatesDiffer(db, now) && Asked(|pages|, limit) >= |feed|
    requires forall k :: 0 <= k < |pages| ==> IsAnswer(db, now, Asked(k, limit), limit, pages[k])
    ensures NoRepeats(Flat(pages)) && forall id :: id in Flat(pages) <==> InFeed(db, id, now)
  {
    OneFeedIff(db, now, feed);
    EveryPostOnce(db, now, feed, limit, pages);
  }

  // ---- the lookup ----

  predicate Matches(db: Db, blogSlug: string, identifier: string, now: int, id: string) {
    && IsVisible(db, id, now)
    && db.blogs[db.posts[id].blogId].slug == blogSlug
    && (db.posts[id].slug == Some(identifier) || id == identifier)
  }

  /** The query names no order: any matching row may be the one returned. */
  method GetPostBySlugOrPublicId(db: Db, blogSlug: string, identifier: string, now: int) returns (r: Lookup<string>)
    ensures r.Failed? <==> blogSlug == "" || identifier == ""
    ensures r.Found? ==> Matches(db, blogSlug, identifier, now, r.row)
    ensures r.NotFound? ==> forall id :: !Matches(db, blogSlug, identifier, now, id)
  {
    if blogSlug == "" || identifier == "" {
      return Failed;
    }
    var rest := db.posts.Keys;
    while rest != {}
      invariant forall id :: Matches(db, blogSlug, identifier, now, id) ==> id in rest
      decreases rest
    {
      var id := Pick(rest);
      if Matches(db, blogSlug, identifier, now, id) {
        return Found(id);
      }
      rest := rest - {id};
    }
    return NotFound;
  }

  // ---- the link and the post behind it ----

  /** derefString(p.Slug, p.PublicID). */
  function LinkId(db: Db, id: string): string
    requires id in db.posts
  {
    match db.posts[id].slug
    case None => id
    case Some(slug) => slug
  }

  function LinkBlog(db: Db, id: string): string
    requires id in db.posts && db.posts[id].blogId in db.blogs
  {
    db.blogs[db.posts[id].blogId].slug
  }

  /** What a caller can check: another visible post of the blog is named the other way round by this link. */
  predicate Confused(db: Db, id: string, now: int)
    requires id in db.posts
  {
    exists other <- db.posts ::
      && other != id
      && IsVisible(db, other, now)
      && db.posts[other].blogId == db.posts[id].blogId
      && if db.posts[id].slug.Some? then db.posts[id].slug == Some(other) else db.posts[other].slug == Some(id)
  }

  ghost predicate FindsOnly(db: Db, id: string, now: int)
    requires id in db.posts && db.posts[id].blogId in db.blogs
  {
    forall found :: Matches(db, LinkBlog(db, id), LinkId(db, id), now, found) <==> found == id
  }

  /** No slug in a blog is another post's public id there. */
  predicate NoMixedNames(db: Db) {
    forall p <- db.posts, q <- db.posts ::
      p != q && db.posts[p].blogId == db.posts[q].blogId ==> db.posts[p].slug != Some(q)
  }

  /** The indexes leave one way for a second post to match: a slug that is another post's public id. */
  lemma OtherMatchIsConfused(db: Db, id: string, now: int, other: string)
    requires Indexed(db) && IsVisible(db, id, now)
    requires other != id && Matches(db, LinkBlog(db, id), LinkId(db, id), now, other)
    ensures Confused(db, id, now)
  {
    var p, q := db.posts[id], db.posts[other];
    assert HasSlug(db, p.blogId, LinkBlog(db, id)) && HasSlug(db, q.blogId, LinkBlog(db, id));
    assert p.blogId == q.blogId;
    assert !SameSlot(p, q);
  }

  /**
   A link finds its own post and no other, at any time from when it was listed on, if and only if no other visible
   post of the blog is confused with it.
   */
  lemma LinkFindsItsPost(db: Db, id: string, listed: int, now: int)
    requires Indexed(db) && IsVisible(db, id, listed) && listed <= now
    ensures LinkId(db, id) != "" && LinkBlog(db, id) != ""
    ensures FindsOnly(db, id, now) <==> !Confused(db, id, now)
    ensures NoMixedNames(db) ==> FindsOnly(db, id, now)
  {
    assert PostRowOk(db.blogs, id, db.posts[id]);
    assert ValidSlug(LinkBlog(db, id));
    forall other | other != id && Matches(db, LinkBlog(db, id), LinkId(db, id), now, other)
      ensures Confused(db, id, now)
    {
      OtherMatchIsConfused(db, id, now, other);
    }
    if Confused(db, id, now) {
      var other :| other in db.posts && other != id && IsVisible(db, other, now)
        && db.posts[other].blogId == db.posts[id].blogId
        && if db.posts[id].slug.Some? then db.posts[id].slug == Some(other) else db.posts[other].slug == Some(id);
      assert Matches(db, LinkBlog(db, id), LinkId(db, id), now, other);
    }
  }

  lemma OnPage(db: Db, now: int, offset: nat, limit: nat, page: seq<string>)
    requires exists feed :: IsFeed(db, now, feed) && IsPage(feed, offset, limit, page)
    ensures forall i :: 0 <= i < |page| ==> InFeed(db, page[i], now)
  {
    var feed :| IsFeed(db, now, feed) && IsPage(feed, offset, limit, page);
    var before, after :| feed == before + page + after && |before| == Least(offset, |feed|);
    forall i | 0 <= i < |page| ensures InFeed(db, page[i], now) {
      assert feed[|before| + i] == page[i];
    }
  }

  /** The lookup behind a post's link has one answer. */
  lemma LinkHasOneAnswer(db: Db, id: string, listed: int, now: int)
    requires Indexed(db) && NoMixedNames(db) && listed <= now && InFeed(db, id, listed)
    ensures db.posts[id].blogId in db.blogs && LinkId(db, id) != "" && LinkBlog(db, id) != ""
    ensures Matches(db, LinkBlog(db, id), LinkId(db, id), now, id)
    ensures forall found :: Matches(db, LinkBlog(db, id), LinkId(db, id), now, found) <==> found == id
  {
    LinkFindsItsPost(db, id, listed, now);
  }

  /** Following the link of any post on any page of the home page, then or later, reaches that post. */
  method FollowLink(db: Db, listed: int, offset: int, limit: int, now: int)
    returns (page: seq<string>, reached: seq<string>)
    requires Indexed(db) && NoMixedNames(db) && listed <= now
    ensures reached == page
    ensures forall i :: 0 <= i < |page| ==> InFeed(db, page[i], listed)
    ensures offset >= 0 && limit > 0 ==> exists feed :: IsFeed(db, listed, feed) && IsPage(feed, offset, limit, page)
  {
    var r := GetLatestPublicPosts(db, listed, offset, limit);
    page, reached := [], [];
    if r.Err? {
      return;
    }
    page := r.value;
    OnPage(db, listed, offset, limit, page);
    for i := 0 to |page|
      invariant reached == page[..i]
    {
      LinkHasOneAnswer(db, page[i], listed, now);
      var found := GetPostBySlugOrPublicId(db, LinkBlog(db, page[i]), LinkId(db, page[i]), now);
      reached := reached + [found.row];
    }
  }

  // ---- the condition can fail ----

  const NOTES := CreateBlogParams(1, "notes", "notes", None, "public", "open", None)

  const HELLO := CreatePostParams(1, 1, Some("hello"), "hello", None, false, None, false, true, true, Some(0))

  const NAMED_OTHERWISE := HELLO.(slug := Some(Uniform('b')))

  function OneBlog(): Db {
    Apply(EmptyDb(map["ann" := 1]), InsertBlog(NOTES))
  }

  function OnePost(): Db {
    Apply(OneBlog(), InsertPost(HELLO, Uniform('b')))
  }

  function TwoPosts(): Db {
    Apply(OnePost(), InsertPost(NAMED_OTHERWISE, Uniform('a')))
  }

  lemma OneBlogFacts()
    ensures OneBlog().users == map["ann" := 1] && OneBlog().posts == map[] && 1 in OneBlog().users.Values
    ensures IsLive(OneBlog(), 1)
  {
    PlainWord("notes");
    assert EmptyDb(map["ann" := 1]).users["ann"] == 1;
  }

  lemma IdIsSlug(id: string)
    requires id == Uniform('b')
    ensures ValidPost(Some(id), "hello", None)
  {
    PlainWord(id);
  }

  lemma HelloIsValid()
    ensures ValidPost(Some("hello"), "hello", None)
  {
    PlainWord("hello");
  }

  lemma InsertGives(db: Db, p: CreatePostParams, id: string)
    requires p.authorId >= 1 && p.blogId >= 1 && ValidPost(p.slug, p.title, p.description) && IsLive(db, p.blogId)
    requires ValidEncryption(p.isEncrypted, p.encryptionIv) && p.authorId in db.users.Values
    requires id != "" && id !in db.posts && p.slug.Some? && forall q :: q in db.posts ==> db.posts[q].slug != p.slug
    ensures var db' := Apply(db, InsertPost(p, id));
      db'.users == db.users && db'.blogs == db.blogs && db'.posts == db.posts[id := NewPost(db, p, id)]
  {
  }

  lemma OnePostFacts(id: string)
    requires id == Uniform('b')
    ensures IsLive(OneBlog(), 1)
    ensures OnePost().users == OneBlog().users && OnePost().blogs == OneBlog().blogs
    ensures OnePost().posts == map[id := NewPost(OneBlog(), HELLO, id)]
  {
    OneBlogFacts();
    HelloIsValid();
    InsertGives(OneBlog(), HELLO, id);
  }

  lemma TwoPostsFacts(id: string, other: string)
    requires id == Uniform('a') && other == Uniform('b')
    ensures id != other && IsLive(OneBlog(), 1) && IsLive(OnePost(), 1)
    ensures TwoPosts().users == OneBlog().users && TwoPosts().blogs == OneBlog().blogs
    ensures TwoPosts().posts == map[
      other := NewPost(OneBlog(), HELLO, other), id := NewPost(OnePost(), NAMED_OTHERWISE, id)]
  {
    assert id[0] != other[0];
    assert |other| != |"hello"|;
    OneBlogFacts();
    OnePostFacts(other);
    IdIsSlug(other);
    InsertGives(OnePost(), NAMED_OTHERWISE, id);
  }

  lemma ConfusedBy(db: Db, id: string, other: string)
    requires Indexed(db) && IsVisible(db, id, 0) && IsVisible(db, other, 0) && other != id
    requires db.posts[other].blogId == db.posts[id].blogId && db.posts[id].slug == Some(other)
    ensures Confused(db, id, 0) && !FindsOnly(db, id, 0)
  {
    LinkFindsItsPost(db, id, 0, 0);
  }

  /** Two posts with generated ids, and the slug of one is the id of the other: its link leads to either. */
  lemma ConfusedExists(statements: seq<Statement>, id: string, other: string)
    requires id == Uniform('a') && other == Uniform('b')
    requires statements == [InsertBlog(NOTES), InsertPost(HELLO, other), InsertPost(NAMED_OTHERWISE, id)]
    ensures IsPublicId(id) && IsPublicId(other)
    ensures var db := ApplyAll(EmptyDb(map["ann" := 1]), statements);
      && IsVisible(db, id, 0) && IsVisible(db, other, 0)
      && db.posts[id].slug == Some(other) && db.posts[other].slug == Some("hello")
      && Confused(db, id, 0) && !FindsOnly(db, id, 0)
  {
    var db := ApplyAll(EmptyDb(map["ann" := 1]), statements);
    UniformIsPublicId('a');
    UniformIsPublicId('b');
    ReachableIndexed(EmptyDb(map["ann" := 1]), statements);
    ThreeStatements(EmptyDb(map["ann" := 1]), statements[0], statements[1], statements[2]);
    assert db == TwoPosts();
    TwoPostsVisible(id, other);
    ConfusedBy(db, id, other);
  }

  lemma TwoPostsVisible(id: string, other: string)
    requires id == Uniform('a') && other == Uniform('b')
    ensures var db := TwoPosts();
      && IsVisible(db, id, 0) && IsVisible(db, other, 0) && other != id
      && db.posts[other].blogId == db.posts[id].blogId
      && db.posts[id].slug == Some(other) && db.posts[other].slug == Some("hello")
  {
    OneBlogFacts();
    TwoPostsFacts(id, other);
  }

  lemma ThreeStatements(db: Db, a: Statement, b: Statement, c: Statement)
    ensures ApplyAll(db, [a, b, c]) == Apply(Apply(Apply(db, a), b), c)
  {
    assert [a, b, c][..2] == [a, b] && [a, b][..1] == [a] && [a][..0] == [];
    assert ApplyAll(db, [a]) == Apply(db, a);
    assert ApplyAll(db, [a, b]) == Apply(Apply(db, a), b);
  }
}
