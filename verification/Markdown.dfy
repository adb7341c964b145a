/**
 The two passes over a parsed document (internal/content/markdown.go) - rewriting local images, then removing the
 first level-1 heading - and the image URLs the renderer writes.
 */
module Markdown {
  import opened Prelude
  import opened Slug
  import Assets
  import Serve

  datatype Kind = Document | Image(dest: string) | Heading(level: int) | Other(name: string)

  datatype Node = Node(kind: Kind, children: seq<Node>)

  /** What a walk of the tree meets, in order. */
  datatype Token = Enter(kind: Kind) | Leave

  function Flatten(n: Node): (r: seq<Token>)
    ensures |r| >= 2 && r[0] == Enter(n.kind)
    decreases n
  {
    [Enter(n.kind)] + FlattenAll(n.children) + [Leave]
  }

  function FlattenAll(nodes: seq<Node>): seq<Token>
    decreases nodes
  {
    if nodes == [] then [] else Flatten(nodes[0]) + FlattenAll(nodes[1..])
  }

  datatype Env = Env(lib: Assets.Library, ns: Assets.Uuid)

  // ---- local images ----

  predicate StartsWith(s: string, prefix: string) {
    |prefix| <= |s| && s[..|prefix|] == prefix
  }

  predicate IsExternalLink(s: string) {
    exists i :: 0 <= i < 5 && StartsWith(LowerAll(s), ["http", "https", "ftp", "ftps", "sftp"][i])
  }

  const ASSETS := "/assets/"

  /** Where Obfuscate's UUID for the path is served. */
  function AssetUrl(env: Env, path: string): string {
    var u := Assets.NewV5(env.lib, env.ns, env.lib.clean(path));
    ASSETS + if Assets.IsUuid(u) then Assets.Show(u) else ""
  }

  lemma AssetUrlIs(env: Env, path: string)
    requires env.lib.Sound()
    ensures var u := Assets.NewV5(env.lib, env.ns, env.lib.clean(path));
      Assets.IsUuid(u) && AssetUrl(env, path) == ASSETS + Assets.Show(u)
  {
    Assets.V5IsUuid(env.lib, env.ns, env.lib.clean(path));
  }

  predicate IsLocalImage(kind: Kind) {
    kind.Image? && !IsExternalLink(kind.dest)
  }

  /** The image whose destination Obfuscate refuses. */
  predicate IsEmptyImage(kind: Kind) {
    kind == Image("")
  }

  function RewriteKind(env: Env, kind: Kind): Kind {
    if IsLocalImage(kind) && kind.dest != "" then Image(AssetUrl(env, kind.dest)) else kind
  }

  /** The walk of assetTransformer: an error at an image ends it, and leaves the rest of the tree as it is. */
  function Rewrite(env: Env, n: Node): (Node, bool)
    decreases n
  {
    if IsEmptyImage(n.kind) then (n, true)
    else
      var (children, stopped) := RewriteAll(env, n.children);
      (Node(RewriteKind(env, n.kind), children), stopped)
  }

  function RewriteAll(env: Env, nodes: seq<Node>): (r: (seq<Node>, bool))
    ensures |r.0| == |nodes|
    decreases nodes
  {
    if nodes == [] then ([], false)
    else
      var (first, stopped) := Rewrite(env, nodes[0]);
      if stopped then ([first] + nodes[1..], true)
      else
        var (rest, stopped') := RewriteAll(env, nodes[1..]);
        ([first] + rest, stopped')
  }

  // ---- the same, said of the walk ----

  predicate HasEmptyImage(ts: seq<Token>) {
    exists i :: 0 <= i < |ts| && ts[i] == Enter(Image(""))
  }

  predicate Reached(ts: seq<Token>, i: nat)
    requires i <= |ts|
  {
    !HasEmptyImage(ts[..i])
  }

  /** Only the local images met before the first empty one change. */
  ghost predicate IsRewriting(env: Env, ts: seq<Token>, ts': seq<Token>) {
    && |ts'| == |ts|
    && forall i :: 0 <= i < |ts| ==> IsRewritten(env, ts, i, ts'[i])
  }

  ghost predicate IsRewritten(env: Env, ts: seq<Token>, i: nat, t: Token)
    requires i < |ts|
  {
    t == if ts[i].Enter? && Reached(ts, i) then Enter(RewriteKind(env, ts[i].kind)) else ts[i]
  }

  lemma HasEmptyImageAppend(a: seq<Token>, b: seq<Token>)
    ensures HasEmptyImage(a + b) <==> HasEmptyImage(a) || HasEmptyImage(b)
  {
    if HasEmptyImage(a) {
      var i :| 0 <= i < |a| && a[i] == Enter(Image(""));
      assert (a + b)[i] == a[i];
    }
    if HasEmptyImage(b) {
      var i :| 0 <= i < |b| && b[i] == Enter(Image(""));
      assert (a + b)[|a| + i] == b[i];
    }
  }

  lemma RewritingAppend(env: Env, a: seq<Token>, a': seq<Token>, b: seq<Token>, b': seq<Token>)
    requires IsRewriting(env, a, a')
    requires if HasEmptyImage(a) then b' == b else IsRewriting(env, b, b')
    ensures IsRewriting(env, a + b, a' + b')
  {
    forall i | 0 <= i < |a + b| ensures IsRewritten(env, a + b, i, (a' + b')[i]) {
      if i < |a| {
        assert (a + b)[..i] == a[..i];
        assert IsRewritten(env, a, i, a'[i]);
      } else {
        var k := i - |a|;
        assert (a + b)[..i] == a + b[..k];
        HasEmptyImageAppend(a, b[..k]);
        if !HasEmptyImage(a) { assert IsRewritten(env, b, k, b'[k]); }
      }
    }
  }

  lemma RewritingOne(env: Env, t: Token)
    ensures IsRewriting(env, [t], [if t.Enter? then Enter(RewriteKind(env, t.kind)) else t])
    ensures HasEmptyImage([t]) <==> t == Enter(Image(""))
  {
    assert [t][0] == t;
    assert [t][..0] == [];
  }

  lemma {:induction false} RewriteIsRewriting(env: Env, n: Node)
    ensures IsRewriting(env, Flatten(n), Flatten(Rewrite(env, n).0))
    ensures Rewrite(env, n).1 <==> HasEmptyImage(Flatten(n))
    decreases n
  {
    var enter, inner := Enter(n.kind), FlattenAll(n.children);
    RewritingOne(env, enter);
    RewritingOne(env, Leave);
    HasEmptyImageAppend([enter], inner);
    HasEmptyImageAppend([enter] + inner, [Leave]);
    if IsEmptyImage(n.kind) {
      RewritingAppend(env, [enter], [enter], inner, inner);
      RewritingAppend(env, [enter] + inner, [enter] + inner, [Leave], [Leave]);
    } else {
      RewriteAllIsRewriting(env, n.children);
      var enter', inner' := Enter(RewriteKind(env, n.kind)), FlattenAll(RewriteAll(env, n.children).0);
      RewritingAppend(env, [enter], [enter'], inner, inner');
      RewritingAppend(env, [enter] + inner, [enter'] + inner', [Leave], [Leave]);
    }
  }

  lemma {:induction false} RewriteAllIsRewriting(env: Env, nodes: seq<Node>)
    ensures IsRewriting(env, FlattenAll(nodes), FlattenAll(RewriteAll(env, nodes).0))
    ensures RewriteAll(env, nodes).1 <==> HasEmptyImage(FlattenAll(nodes))
    decreases nodes
  {
    if nodes != [] {
      var first, rest := Flatten(nodes[0]), FlattenAll(nodes[1..]);
      RewriteIsRewriting(env, nodes[0]);
      HasEmptyImageAppend(first, rest);
      var (first', stopped) := Rewrite(env, nodes[0]);
      if stopped {
        assert ([first'] + nodes[1..])[1..] == nodes[1..];
        RewritingAppend(env, first, Flatten(first'), rest, rest);
      } else {
        RewriteAllIsRewriting(env, nodes[1..]);
        var rest' := RewriteAll(env, nodes[1..]).0;
        assert ([first'] + rest')[1..] == rest';
        RewritingAppend(env, first, Flatten(first'), rest, FlattenAll(rest'));
      }
    }
  }

  predicate IsNamedLocal(t: Token) {
    t.Enter? && IsLocalImage(t.kind) && t.kind.dest != ""
  }

  /** A local image gets its URL if and only if no empty destination comes before it (or it had that URL already). */
  lemma RewrittenIffReached(env: Env, n: Node, i: nat)
    requires i < |Flatten(n)| && IsNamedLocal(Flatten(n)[i])
    ensures var ts, ts' := Flatten(n), Flatten(Rewrite(env, n).0);
      var url := AssetUrl(env, ts[i].kind.dest);
      && |ts'| == |ts|
      && (ts'[i] == Enter(Image(url)) <==> Reached(ts, i) || ts[i].kind.dest == url)
      && (!Rewrite(env, n).1 ==> Reached(ts, i))
  {
    RewriteIsRewriting(env, n);
    var ts, ts' := Flatten(n), Flatten(Rewrite(env, n).0);
    assert IsRewritten(env, ts, i, ts'[i]);
    assert ts == ts[..i] + ts[i..];
    HasEmptyImageAppend(ts[..i], ts[i..]);
  }

  /** The text begins, in capitals or small letters, with one of the schemes that are left alone. */
  predicate HasScheme(s: string) {
    || (|s| >= 4 && Spells(s[..4], "http"))
    || (|s| >= 3 && Spells(s[..3], "ftp"))
    || (|s| >= 4 && Spells(s[..4], "sftp"))
  }

  lemma StartIff(s: string, word: string)
    requires forall i :: 0 <= i < |word| ==> IsWordChar(word[i])
    ensures StartsWith(LowerAll(s), word) <==> |s| >= |word| && Spells(s[..|word|], word)
  {
    if |s| >= |word| {
      SpellsIff(s[..|word|], word);
      assert LowerAll(s)[..|word|] == LowerAll(s[..|word|]);
    }
  }

  lemma StartsLonger(s: string, word: string, more: string)
    requires StartsWith(s, more) && StartsWith(more, word)
    ensures StartsWith(s, word)
  {
    assert s[..|word|] == s[..|more|][..|word|];
  }

  lemma ExternalIff(s: string)
    ensures IsExternalLink(s) <==> HasScheme(s)
  {
    var schemes, low := ["http", "https", "ftp", "ftps", "sftp"], LowerAll(s);
    assert schemes[0] == "http" && schemes[1] == "https" && schemes[2] == "ftp" && schemes[3] == "ftps"
      && schemes[4] == "sftp";
    StartIff(s, "http");
    StartIff(s, "ftp");
    StartIff(s, "sftp");
    if StartsWith(low, "https") { StartsLonger(low, "http", "https"); }
    if StartsWith(low, "ftps") { StartsLonger(low, "ftp", "ftps"); }
  }

  /** The image names a file of the sources. */
  predicate NamesSource(t: Token) {
    t.Enter? && t.kind.Image? && t.kind.dest != "" && !HasScheme(t.kind.dest)
  }

  /**
   What becomes of everything a document holds: an image of a source gets the URL of its cleaned path's UUID, if no
   image with an empty destination comes before it; all else stays as it is.
   */
  lemma WhatImagesBecome(env: Env, n: Node, i: nat)
    requires env.lib.Sound() && i < |Flatten(n)|
    ensures |Flatten(Rewrite(env, n).0)| == |Flatten(n)|
    ensures var t, t' := Flatten(n)[i], Flatten(Rewrite(env, n).0)[i];
      if NamesSource(t) && (forall k :: 0 <= k < i ==> Flatten(n)[k] != Enter(Image(""))) then
        var u := Assets.NewV5(env.lib, env.ns, env.lib.clean(t.kind.dest));
        Assets.IsUuid(u) && t' == Enter(Image("/assets/" + Assets.Show(u)))
      else t' == t
  {
    RewriteIsRewriting(env, n);
    var ts, ts' := Flatten(n), Flatten(Rewrite(env, n).0);
    assert IsRewritten(env, ts, i, ts'[i]);
    ReachedIff(ts, i);
    if ts[i].Enter? && ts[i].kind.Image? {
      ExternalIff(ts[i].kind.dest);
      AssetUrlIs(env, ts[i].kind.dest);
    }
  }

  lemma ReachedIff(ts: seq<Token>, i: nat)
    requires i <= |ts|
    ensures Reached(ts, i) <==> forall k :: 0 <= k < i ==> ts[k] != Enter(Image(""))
  {
    if k :| 0 <= k < i && ts[k] == Enter(Image("")) {
      assert ts[..i][k] == ts[k];
    }
  }

  // ---- the first level-1 heading ----

  const H1 := Heading(1)

  /** The walk of h1Stripper below a node: the heading leaves its parent's children, and the walk ends. */
  function Strip(n: Node): (Node, bool)
    decreases n
  {
    var (children, found) := StripAll(n.children);
    (Node(n.kind, children), found)
  }

  function StripAll(nodes: seq<Node>): (seq<Node>, bool)
    decreases nodes
  {
    if nodes == [] then ([], false)
    else if nodes[0].kind == H1 then (nodes[1..], true)
    else
      var (first, found) := Strip(nodes[0]);
      if found then ([first] + nodes[1..], true)
      else
        var (rest, found') := StripAll(nodes[1..]);
        ([first] + rest, found')
  }

  predicate HasH1(ts: seq<Token>) {
    exists i :: 0 <= i < |ts| && ts[i] == Enter(Heading(1))
  }

  /** The tokens of one level-1 heading, the first of the document, are gone; and nothing else. */
  ghost predicate IsWithoutFirstH1(ts: seq<Token>, ts': seq<Token>, pre: seq<Token>, h: Node, post: seq<Token>) {
    && h.kind == Heading(1) && !HasH1(pre)
    && ts == pre + Flatten(h) + post
    && ts' == pre + post
  }

  ghost predicate IsStripped(ts: seq<Token>, ts': seq<Token>, found: bool) {
    if found then exists pre, h, post :: IsWithoutFirstH1(ts, ts', pre, h, post) else ts' == ts && !HasH1(ts)
  }

  lemma HasH1Append(a: seq<Token>, b: seq<Token>)
    ensures HasH1(a + b) <==> HasH1(a) || HasH1(b)
  {
    if HasH1(a) {
      var i :| 0 <= i < |a| && a[i] == Enter(H1);
      assert (a + b)[i] == a[i];
    }
    if HasH1(b) {
      var i :| 0 <= i < |b| && b[i] == Enter(H1);
      assert (a + b)[|a| + i] == b[i];
    }
  }

  lemma Regroup(before: seq<Token>, pre: seq<Token>, mid: seq<Token>, post: seq<Token>, after: seq<Token>)
    ensures before + (pre + mid + post) + after == (before + pre) + mid + (post + after)
  {
  }

  /** A removal stays one when tokens without a level-1 heading come before, and any after. */
  lemma StrippedInside(before: seq<Token>, ts: seq<Token>, ts': seq<Token>, after: seq<Token>)
    requires !HasH1(before) && IsStripped(ts, ts', true)
    ensures IsStripped(before + ts + after, before + ts' + after, true)
  {
    var pre, h, post :| IsWithoutFirstH1(ts, ts', pre, h, post);
    HasH1Append(before, pre);
    Regroup(before, pre, Flatten(h), post, after);
    Regroup(before, pre, [], post, after);
    assert pre + [] + post == pre + post && before + pre + [] == before + pre;
    assert IsWithoutFirstH1(before + ts + after, before + ts' + after, before + pre, h, post + after);
  }

  /** For a document, or any node that is not itself a level-1 heading. */
  lemma {:induction false} StripIsStripped(n: Node)
    requires n.kind != H1
    ensures IsStripped(Flatten(n), Flatten(Strip(n).0), Strip(n).1)
    decreases n
  {
    StripAllIsStripped(n.children);
    var (children, found) := StripAll(n.children);
    HasH1Append([Enter(n.kind)], FlattenAll(n.children));
    HasH1Append([Enter(n.kind)] + FlattenAll(n.children), [Leave]);
    if found {
      StrippedInside([Enter(n.kind)], FlattenAll(n.children), FlattenAll(children), [Leave]);
    }
  }

  lemma {:induction false} StripAllIsStripped(nodes: seq<Node>)
    ensures IsStripped(FlattenAll(nodes), FlattenAll(StripAll(nodes).0), StripAll(nodes).1)
    decreases nodes
  {
    if nodes != [] {
      if nodes[0].kind == H1 {
        var h, post := nodes[0], FlattenAll(nodes[1..]);
        assert IsWithoutFirstH1(FlattenAll(nodes), post, [], h, post) by {
          assert [] + Flatten(h) + post == FlattenAll(nodes) && [] + post == post;
        }
      } else {
        StripIsStripped(nodes[0]);
        StripAllIsStripped(nodes[1..]);
        StripFirstOrRest(nodes);
      }
    }
  }

  lemma {:induction false} StripFirstOrRest(nodes: seq<Node>)
    requires nodes != [] && nodes[0].kind != H1
    requires IsStripped(Flatten(nodes[0]), Flatten(Strip(nodes[0]).0), Strip(nodes[0]).1)
    requires IsStripped(FlattenAll(nodes[1..]), FlattenAll(StripAll(nodes[1..]).0), StripAll(nodes[1..]).1)
    ensures IsStripped(FlattenAll(nodes), FlattenAll(StripAll(nodes).0), StripAll(nodes).1)
  {
    var first, rest := Flatten(nodes[0]), FlattenAll(nodes[1..]);
    var (head, found) := Strip(nodes[0]);
    var (tail, found') := StripAll(nodes[1..]);
    HasH1Append(first, rest);
    if found {
      FlattenCons(head, nodes[1..]);
      StrippedInside([], first, Flatten(head), rest);
      assert [] + first + rest == FlattenAll(nodes) && [] + Flatten(head) + rest == FlattenAll([head] + nodes[1..]);
    } else {
      FlattenCons(head, tail);
      if found' {
        StrippedInside(first, rest, FlattenAll(tail), []);
        assert first + rest + [] == FlattenAll(nodes) && first + FlattenAll(tail) + [] == FlattenAll([head] + tail);
      }
    }
  }

  lemma FlattenCons(n: Node, nodes: seq<Node>)
    ensures FlattenAll([n] + nodes) == Flatten(n) + FlattenAll(nodes)
  {
    assert ([n] + nodes)[1..] == nodes;
  }

  // ---- the two passes together ----

  function Transform(env: Env, n: Node): Node {
    Strip(Rewrite(env, n).0).0
  }

  lemma RewritingKeepsH1(env: Env, ts: seq<Token>, ts': seq<Token>)
    requires IsRewriting(env, ts, ts')
    ensures HasH1(ts') <==> HasH1(ts)
  {
    forall i | 0 <= i < |ts| ensures ts'[i] == Enter(H1) <==> ts[i] == Enter(H1) {
      assert IsRewritten(env, ts, i, ts'[i]);
    }
  }

  lemma StrippedFinds(ts: seq<Token>, ts': seq<Token>, found: bool)
    requires IsStripped(ts, ts', found)
    ensures found <==> HasH1(ts)
  {
    if found {
      var pre, h, post :| IsWithoutFirstH1(ts, ts', pre, h, post);
      assert ts[|pre|] == Flatten(h)[0];
    }
  }

  /**
   Of everything the walk meets in a document, the two passes change the local images' destinations, as far as the
   first empty one, and take out exactly the first level-1 heading with what it holds.
   */
  lemma TransformChanges(env: Env, n: Node)
    requires n.kind == Document
    ensures var ts := Flatten(n);
      exists rewritten ::
        IsRewriting(env, ts, rewritten) && IsStripped(rewritten, Flatten(Transform(env, n)), HasH1(ts))
  {
    RewriteIsRewriting(env, n);
    var ts, rewritten := Flatten(n), Flatten(Rewrite(env, n).0);
    StripIsStripped(Rewrite(env, n).0);
    StrippedFinds(rewritten, Flatten(Transform(env, n)), Strip(Rewrite(env, n).0).1);
    RewritingKeepsH1(env, ts, rewritten);
  }

  // ---- rendered URLs ----

  /** The candidates of the srcset that renderImage writes; the first is also the src. */
  function ImageUrls(dest: string): seq<string> {
    [dest + "_800", dest + "_1200", dest + "_1920"]
  }

  lemma ThreeDigits()
    ensures Decimal(800) == "800"
  {
    assert Digits(8) == "8" && Digits(80) == "80";
  }

  lemma FourDigits()
    ensures Decimal(1200) == "1200"
  {
    assert Digits(1) == "1" && Digits(12) == "12" && Digits(120) == "120";
  }

  lemma FourDigitsMore()
    ensures Decimal(1920) == "1920"
  {
    assert Digits(1) == "1" && Digits(19) == "19" && Digits(192) == "192";
  }

  lemma UrlsAreWidths(dest: string, k: nat)
    requires k < |Serve.WIDTHS|
    ensures ImageUrls(dest)[k] == dest + "_" + Decimal(Serve.WIDTHS[k])
  {
    ThreeDigits();
    FourDigits();
    FourDigitsMore();
    assert dest + "_" + "800" == dest + "_800";
    assert dest + "_" + "1200" == dest + "_1200";
    assert dest + "_" + "1920" == dest + "_1920";
  }

  lemma UrlParts(prefix: string, id: string, k: nat)
    requires k < |Serve.WIDTHS|
    ensures var url := ImageUrls(prefix + id)[k];
      |prefix| <= |url| && url[..|prefix|] == prefix && url[|prefix|..] == id + "_" + Decimal(Serve.WIDTHS[k])
  {
    UrlsAreWidths(prefix + id, k);
    Joined(prefix, id, Decimal(Serve.WIDTHS[k]));
  }

  lemma Joined(prefix: string, id: string, width: string)
    ensures var url := prefix + id + "_" + width;
      |prefix| <= |url| && url[..|prefix|] == prefix && url[|prefix|..] == id + "_" + width
  {
    assert prefix + id + "_" + width == prefix + (id + "_" + width);
  }

  /**
   Each URL rendered for a rewritten local image is served under a key that reads back as the image's UUID and the
   width; and once Obfuscate has entered the path, the UUID leads to the cleaned path, if no paths in use collide.
   */
  lemma RenderedUrlRoundTrip(env: Env, maps: Assets.Maps, path: string, k: nat)
    requires env.lib.Sound() && k < |Serve.WIDTHS| && Assets.MapsOk(env.lib, env.ns, maps)
    ensures var url := ImageUrls(AssetUrl(env, path))[k];
      var request := Serve.ParseKey(env.lib, url[|ASSETS|..]);
      && url[..|ASSETS|] == ASSETS
      && request == Serve.Asset(Assets.NewV5(env.lib, env.ns, env.lib.clean(path)), Serve.WIDTHS[k])
      && (env.lib.clean(path) in maps.byPath && Assets.NoCollision(env.lib, env.ns, maps.byPath.Keys)
          ==> Assets.Relative(maps, request.uuid) == Ok(env.lib.clean(path)))
  {
    var clean := env.lib.clean(path);
    var u := Assets.NewV5(env.lib, env.ns, clean);
    AssetUrlIs(env, path);
    UrlParts(ASSETS, Assets.Show(u), k);
    Serve.KeyRoundTrip(env.lib, u, Serve.WIDTHS[k]);
    if clean in maps.byPath && Assets.NoCollision(env.lib, env.ns, maps.byPath.Keys) {
      LeadsBack(env, maps, clean);
    }
  }

  lemma LeadsBack(env: Env, maps: Assets.Maps, clean: string)
    requires env.lib.Sound() && Assets.MapsOk(env.lib, env.ns, maps)
    requires clean in maps.byPath && Assets.NoCollision(env.lib, env.ns, maps.byPath.Keys)
    ensures Assets.Relative(maps, Assets.NewV5(env.lib, env.ns, clean)) == Ok(clean)
  {
    Assets.V5IsUuid(env.lib, env.ns, clean);
    Assets.InverseIff(env.lib, env.ns, maps);
    assert maps.byPath[clean] == Assets.NewV5(env.lib, env.ns, clean);
  }

  // ---- the passes as code ----

  /** The cleaned paths that the walk enters: those of the local images before the first empty one. */
  function Entered(lib: Assets.Library, ts: seq<Token>): set<string> {
    if ts == [] || ts[0] == Enter(Image("")) then {}
    else (if IsNamedLocal(ts[0]) then {lib.clean(ts[0].kind.dest)} else {}) + Entered(lib, ts[1..])
  }

  lemma {:induction false} EnteredAppend(lib: Assets.Library, a: seq<Token>, b: seq<Token>)
    ensures Entered(lib, a + b) == Entered(lib, a) + if HasEmptyImage(a) then {} else Entered(lib, b)
  {
    if a == [] {
      assert a + b == b;
    } else {
      EnteredAppend(lib, a[1..], b);
      assert (a + b)[1..] == a[1..] + b;
      assert a == [a[0]] + a[1..];
      HasEmptyImageAppend([a[0]], a[1..]);
      assert HasEmptyImage([a[0]]) <==> a[0] == Enter(Image("")) by { assert [a[0]][0] == a[0]; }
    }
  }

  /** What a walk of one node, or of a row of siblings, has done: the tree it leaves, and the paths then entered. */
  ghost predicate Walked(env: Env, n: Node, before: set<string>, r: Node, stopped: bool, after: set<string>) {
    (r, stopped) == Rewrite(env, n) && after == before + Entered(env.lib, Flatten(n))
  }

  ghost predicate WalkedAll(
      env: Env, nodes: seq<Node>, before: set<string>, r: seq<Node>, stopped: bool, after: set<string>)
  {
    (r, stopped) == RewriteAll(env, nodes) && after == before + Entered(env.lib, FlattenAll(nodes))
  }

  lemma WalkedEmptyImage(env: Env, n: Node, before: set<string>)
    requires IsEmptyImage(n.kind)
    ensures Walked(env, n, before, n, true, before)
  {
  }

  function PathOf(lib: Assets.Library, kind: Kind): set<string> {
    if IsNamedLocal(Enter(kind)) then {lib.clean(kind.dest)} else {}
  }

  lemma WalkedNode(env: Env, n: Node, before: set<string>, children: seq<Node>, stopped: bool, after: set<string>)
    requires !IsEmptyImage(n.kind)
    requires WalkedAll(env, n.children, before + PathOf(env.lib, n.kind), children, stopped, after)
    ensures Walked(env, n, before, Node(RewriteKind(env, n.kind), children), stopped, after)
  {
    var inner := FlattenAll(n.children);
    assert Flatten(n)[1..] == inner + [Leave];
    EnteredAppend(env.lib, inner, [Leave]);
    assert Entered(env.lib, [Leave]) == {};
  }

  lemma WalkedStop(env: Env, nodes: seq<Node>, before: set<string>, first: Node, after: set<string>)
    requires nodes != [] && Walked(env, nodes[0], before, first, true, after)
    ensures WalkedAll(env, nodes, before, [first] + nodes[1..], true, after)
  {
    EnteredAppend(env.lib, Flatten(nodes[0]), FlattenAll(nodes[1..]));
    RewriteIsRewriting(env, nodes[0]);
  }

  lemma WalkedCons(
      env: Env, nodes: seq<Node>, before: set<string>, first: Node, between: set<string>,
      rest: seq<Node>, stopped: bool, after: set<string>)
    requires nodes != [] && Walked(env, nodes[0], before, first, false, between)
    requires WalkedAll(env, nodes[1..], between, rest, stopped, after)
    ensures WalkedAll(env, nodes, before, [first] + rest, stopped, after)
  {
    EnteredAppend(env.lib, Flatten(nodes[0]), FlattenAll(nodes[1..]));
    RewriteIsRewriting(env, nodes[0]);
  }

  ghost predicate Serves(assets: Assets.AssetManager, env: Env)
    reads assets
  {
    assets.lib == env.lib && assets.namespace == env.ns && Assets.MapsOk(env.lib, env.ns, assets.State())
  }

  /** The visit of one node: None where Obfuscate's error ends the walk. */
  method RewriteVisit(env: Env, assets: Assets.AssetManager, kind: Kind) returns (r: Option<Kind>)
    requires env.lib.Sound() && Serves(assets, env)
    modifies assets
    ensures r == if IsEmptyImage(kind) then None else Some(RewriteKind(env, kind))
    ensures Serves(assets, env)
    ensures assets.pathToUuid.Keys == old(assets.pathToUuid).Keys + PathOf(env.lib, kind)
  {
    if !kind.Image? {
      return Some(kind);
    }
    if IsExternalLink(kind.dest) {
      return Some(kind);
    }
    AssetUrlIs(env, kind.dest);
    var id := assets.Obfuscate(kind.dest);
    if id.Err? {
      return None;
    }
    return Some(Image(ASSETS + Assets.Show(id.value)));
  }

  /** assetTransformer over a tree: the tree of Rewrite, and exactly the paths of its walk entered. */
  method RewriteImages(env: Env, assets: Assets.AssetManager, n: Node) returns (r: Node, stopped: bool)
    requires env.lib.Sound() && Serves(assets, env)
    modifies assets
    ensures Serves(assets, env)
    ensures Walked(env, n, old(assets.pathToUuid).Keys, r, stopped, assets.pathToUuid.Keys)
    decreases n, 0
  {
    ghost var before := assets.pathToUuid.Keys;
    var kind := RewriteVisit(env, assets, n.kind);
    if kind.None? {
      WalkedEmptyImage(env, n, before);
      return n, true;
    }
    var children;
    children, stopped := RewriteChildren(env, assets, n.children);
    WalkedNode(env, n, before, children, stopped, assets.pathToUuid.Keys);
    return Node(kind.value, children), stopped;
  }

  method RewriteChildren(env: Env, assets: Assets.AssetManager, nodes: seq<Node>) returns (r: seq<Node>, stopped: bool)
    requires env.lib.Sound() && Serves(assets, env)
    modifies assets
    ensures Serves(assets, env)
    ensures WalkedAll(env, nodes, old(assets.pathToUuid).Keys, r, stopped, assets.pathToUuid.Keys)
    decreases nodes, 1
  {
    if nodes == [] {
      return [], false;
    }
    ghost var before := assets.pathToUuid.Keys;
    var first;
    first, stopped := RewriteImages(env, assets, nodes[0]);
    if stopped {
      WalkedStop(env, nodes, before, first, assets.pathToUuid.Keys);
      return [first] + nodes[1..], true;
    }
    ghost var between := assets.pathToUuid.Keys;
    var rest;
    rest, stopped := RewriteChildren(env, assets, nodes[1..]);
    WalkedCons(env, nodes, before, first, between, rest, stopped, assets.pathToUuid.Keys);
    return [first] + rest, stopped;
  }

  /** One image with no destination leaves the local images after it as they are. */
  lemma EmptyImageStops(env: Env)
    ensures var n := Node(Document, [Node(Image(""), []), Node(Image("a.png"), [])]);
      && IsNamedLocal(Flatten(n)[3]) && !Reached(Flatten(n), 3)
      && Rewrite(env, n) == (n, true)
  {
    var n := Node(Document, [Node(Image(""), []), Node(Image("a.png"), [])]);
    var first, second := n.children[0], n.children[1];
    assert FlattenAll([]) == [];
    assert Flatten(first) == [Enter(Image("")), Leave] && Flatten(second) == [Enter(Image("a.png")), Leave];
    assert n.children[1..] == [second] && [second][1..] == [];
    assert FlattenAll([second]) == Flatten(second);
    assert Flatten(n) == [Enter(Document), Enter(Image("")), Leave, Enter(Image("a.png")), Leave, Leave];
    assert Flatten(n)[..3][1] == Enter(Image(""));
    assert LowerAll("a.png")[0] == 'a';
    assert n.children == [first] + n.children[1..];
    assert RewriteAll(env, n.children) == ([first] + n.children[1..], true);
  }
}
