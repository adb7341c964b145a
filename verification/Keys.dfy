/**
 The object keys of the bucket and the keys of jobs in flight (genPostS3Key in internal/storage/sqlite/posts.go,
 internal/content/sync.go, internal/content/webp_processor.go).
 */
module Keys {
  import opened Prelude
  import opened Slug
  import opened PublicId
  import opened Database

  /** The key Enqueue marks as in flight. */
  function FlightKey(id: string, width: int): string {
    id + "_" + Decimal(width)
  }

  const VARIANT_EXT := ".webp"

  /** The key ProcessJob saves under, and the one worker releases. */
  function VariantKey(id: string, width: int): string {
    FlightKey(id, width) + VARIANT_EXT
  }

  /** filepath.Ext: from the last dot of the last path element, or nothing. */
  function Ext(path: string): string
    decreases |path|
  {
    if path == "" || path[|path| - 1] == '/' then ""
    else if path[|path| - 1] == '.' then "."
    else
      var ext := Ext(path[..|path| - 1]);
      if ext == "" then "" else ext + [path[|path| - 1]]
  }

  /** The files SyncAssets uploads. */
  predicate IsSourceKey(key: string) {
    LowerAll(Ext(key)) in [".jpg", ".jpeg", ".png", ".gif"]
  }

  /** The name ends in a dot and one of the four extensions, in capitals or small letters. */
  ghost predicate IsImageName(name: string) {
    exists stem, ext :: name == stem + "." + ext && IsImageExt(ext)
  }

  predicate IsImageExt(ext: string) {
    Spells(ext, "jpg") || Spells(ext, "jpeg") || Spells(ext, "png") || Spells(ext, "gif")
  }

  ghost predicate IsPostKey(key: string) {
    exists slug, id :: IsSlug(slug) && IsPublicId(id) && key == PostKey(slug, id)
  }

  ghost predicate IsVariantKey(key: string) {
    exists id, width :: key == VariantKey(id, width)
  }

  // ---- keys of variants ----

  ghost predicate LastAt(s: string, c: char, i: int) {
    0 <= i < |s| && s[i] == c && forall k :: i < k < |s| ==> s[k] != c
  }

  ghost predicate FirstAt(s: string, c: char, i: int) {
    0 <= i < |s| && s[i] == c && forall k :: 0 <= k < i ==> s[k] != c
  }

  /** A string is split one way at its last underscore. */
  lemma SplitAtLast(id: string, other: string, digits: string, digits': string)
    requires id + "_" + digits == other + "_" + digits'
    requires '_' !in digits && '_' !in digits'
    ensures id == other && digits == digits'
  {
    var key := id + "_" + digits;
    var key' := other + "_" + digits';
    assert forall k :: |id| < k < |key| ==> key[k] == digits[k - |id| - 1];
    assert forall k :: |other| < k < |key'| ==> key'[k] == digits'[k - |other| - 1];
    assert LastAt(key, '_', |id|) && LastAt(key', '_', |other|);
    assert key[..|id|] == id && key'[..|other|] == other;
    assert key[|id| + 1..] == digits && key'[|other| + 1..] == digits';
  }

  lemma FlightKeyInjective(id: string, width: int, other: string, width': int)
    requires FlightKey(id, width) == FlightKey(other, width')
    ensures id == other && width == width'
  {
    SplitAtLast(id, other, Decimal(width), Decimal(width'));
    DecimalInjective(width, width');
  }

  lemma VariantKeyInjective(id: string, width: int, other: string, width': int)
    requires VariantKey(id, width) == VariantKey(other, width')
    ensures id == other && width == width'
  {
    var k, k' := FlightKey(id, width), FlightKey(other, width');
    assert k == VariantKey(id, width)[..|k|] && k' == VariantKey(other, width')[..|k'|];
    FlightKeyInjective(id, width, other, width');
  }

  /** So what the worker releases is never a key that Enqueue has marked. */
  lemma ReleaseMissesFlight(id: string, width: int, other: string, width': int)
    ensures VariantKey(id, width) != FlightKey(other, width')
  {
    var k, k' := VariantKey(id, width), FlightKey(other, width');
    assert k[|k| - 1] == 'p';
    assert k'[|k'| - 1] == Decimal(width')[|Decimal(width')| - 1];
  }

  // ---- the three families of object keys ----

  lemma {:induction false} NoDotNoExt(s: string, tail: string)
    requires s != "" ==> s[|s| - 1] == '/'
    requires '.' !in tail && '/' !in tail
    ensures Ext(s + tail) == ""
  {
    if tail != "" {
      var init := tail[..|tail| - 1];
      assert (s + tail)[..|s + tail| - 1] == s + init;
      NoDotNoExt(s, init);
    } else {
      assert s + tail == s;
    }
  }

  lemma PostKeyExt(slug: string, id: string)
    requires IsPublicId(id)
    ensures Ext(PostKey(slug, id)) == ""
  {
    NoDotNoExt(slug + "/", id);
    assert PostKey(slug, id) == (slug + "/") + id;
  }

  lemma {:induction false} ExtAfterDot(s: string, tail: string)
    requires '.' !in tail && '/' !in tail
    ensures Ext(s + "." + tail) == "." + tail
  {
    var path := s + "." + tail;
    if tail != "" {
      var init := tail[..|tail| - 1];
      assert path[..|path| - 1] == s + "." + init;
      ExtAfterDot(s, init);
      assert "." + tail == ("." + init) + [tail[|tail| - 1]];
    }
  }

  lemma {:induction false} ExtIsLast(path: string)
    ensures Ext(path) != "" ==> Ext(path)[0] == '.' && EndsWith(path, Ext(path))
  {
    if path != "" && path[|path| - 1] != '/' && path[|path| - 1] != '.' {
      var init := path[..|path| - 1];
      ExtIsLast(init);
      assert path == init + [path[|path| - 1]];
    }
  }

  lemma DottedLower(ext: string, word: string)
    requires forall i :: 0 <= i < |word| ==> IsWordChar(word[i])
    ensures LowerAll("." + ext) == "." + word <==> Spells(ext, word)
  {
    SpellsIff(ext, word);
    assert LowerAll("." + ext) == "." + LowerAll(ext);
    if "." + LowerAll(ext) == "." + word {
      assert ("." + LowerAll(ext))[1..] == LowerAll(ext) && ("." + word)[1..] == word;
    }
  }

  lemma ImageExtIff(ext: string)
    ensures LowerAll("." + ext) in [".jpg", ".jpeg", ".png", ".gif"] <==> IsImageExt(ext)
  {
    DottedLower(ext, "jpg");
    DottedLower(ext, "jpeg");
    DottedLower(ext, "png");
    DottedLower(ext, "gif");
    assert "." + "jpg" == ".jpg" && "." + "jpeg" == ".jpeg" && "." + "png" == ".png" && "." + "gif" == ".gif";
  }

  lemma ImageExtIsPlain(ext: string)
    requires IsImageExt(ext)
    ensures '.' !in ext && '/' !in ext
  {
    forall i | 0 <= i < |ext| ensures Reads(ext[i]).Some? {
    }
  }

  /** Which files are uploaded, said of their names alone. */
  lemma SourceKeyIff(key: string)
    ensures IsSourceKey(key) <==> IsImageName(key)
  {
    if IsSourceKey(key) {
      ExtIsLast(key);
      var dotted := Ext(key);
      assert dotted != "" by { assert LowerAll("") == ""; }
      var stem, ext := key[..|key| - |dotted|], dotted[1..];
      assert dotted == "." + ext;
      ImageExtIff(ext);
      assert key == stem + "." + ext;
    }
    if stem, ext :| key == stem + "." + ext && IsImageExt(ext) {
      ImageExtIsPlain(ext);
      ExtAfterDot(stem, ext);
      ImageExtIff(ext);
    }
  }

  lemma VariantKeyExt(id: string, width: int)
    ensures Ext(VariantKey(id, width)) == VARIANT_EXT
  {
    ExtAfterDot(FlightKey(id, width), "webp");
    assert VariantKey(id, width) == FlightKey(id, width) + "." + "webp";
  }

  lemma PostKeyIsNoOther(key: string)
    requires IsPostKey(key)
    ensures !IsSourceKey(key) && Ext(key) == ""
  {
    var slug, id :| IsSlug(slug) && IsPublicId(id) && key == PostKey(slug, id);
    PostKeyExt(slug, id);
  }

  lemma VariantKeyIsNoSource(key: string)
    requires IsVariantKey(key)
    ensures !IsSourceKey(key) && Ext(key) == VARIANT_EXT
  {
    var id, width :| key == VariantKey(id, width);
    VariantKeyExt(id, width);
    assert LowerAll(VARIANT_EXT)[1] == 'w';
  }

  /** Post bodies, image sources and variants never share a key. */
  lemma FamiliesApart(key: string)
    ensures !(IsPostKey(key) && IsSourceKey(key))
    ensures !(IsPostKey(key) && IsVariantKey(key))
    ensures !(IsSourceKey(key) && IsVariantKey(key))
  {
    if IsPostKey(key) { PostKeyIsNoOther(key); }
    if IsVariantKey(key) { VariantKeyIsNoSource(key); }
  }

  // ---- post keys in every reachable database ----

  /** The slug part of a post key holds no slash, so the key determines the identifier. */
  lemma PostKeyDeterminesId(slug: string, id: string, slug': string, id': string)
    requires IsSlug(slug) && IsSlug(slug') && PostKey(slug, id) == PostKey(slug', id')
    ensures id == id' && slug == slug'
  {
    SlugIsAscii(slug);
    SlugIsAscii(slug');
    var key, key' := PostKey(slug, id), PostKey(slug', id');
    assert FirstAt(key, '/', |slug|) && FirstAt(key', '/', |slug'|);
    assert key[..|slug|] == slug && key'[..|slug'|] == slug';
    assert key[|slug| + 1..] == id && key'[|slug'| + 1..] == id';
  }

  /**
   After any statements - blogs created, renamed and deleted, slugs freed and taken again, posts made under any
   identifiers - no two posts share an object key.
   */
  lemma PostKeysDistinct(users: map<string, int>, statements: seq<Statement>, p: string, q: string)
    requires var db := ApplyAll(EmptyDb(users), statements);
      p in db.posts && q in db.posts && db.posts[p].s3Key == db.posts[q].s3Key
    ensures p == q
  {
    var db := ApplyAll(EmptyDb(users), statements);
    ReachableIndexed(EmptyDb(users), statements);
    assert PostRowOk(db.blogs, p, db.posts[p]) && PostRowOk(db.blogs, q, db.posts[q]);
    var slug :| ValidSlug(slug) && db.posts[p].s3Key == PostKey(slug, p);
    var slug' :| ValidSlug(slug') && db.posts[q].s3Key == PostKey(slug', q);
    PostKeyDeterminesId(slug, p, slug', q);
  }

  /** And with generated identifiers, no post shares its key with an image or a variant. */
  lemma PostKeysApart(users: map<string, int>, statements: seq<Statement>, p: string)
    requires var db := ApplyAll(EmptyDb(users), statements); p in db.posts && IsPublicId(p)
    ensures var key := ApplyAll(EmptyDb(users), statements).posts[p].s3Key;
      !IsSourceKey(key) && !IsVariantKey(key)
  {
    var db := ApplyAll(EmptyDb(users), statements);
    ReachableIndexed(EmptyDb(users), statements);
    assert PostRowOk(db.blogs, p, db.posts[p]);
    FamiliesApart(db.posts[p].s3Key);
  }
}
