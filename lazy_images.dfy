/** The Jekyll `post_render` hook of _plugins/lazy_images.rb: in every
    rendered `.html` document, each match of
    `<img(?![^>]*\bloading=)([^>]*)>` is replaced by
    `<img loading="lazy"\1>`, scanning left to right as `gsub` does and
    resuming after each replaced match. */
module LazyImages {
  import opened Wrappers
  import opened Strings
  import opened Seqs

  /** What the replacement inserts right after `<img`. */
  const LazyAttr: string := " loading=\"lazy\""

  /** A regex word character: ASCII letters, digits and `_`. */
  predicate IsWordChar(c: char) {
    ('a' <= c <= 'z') || ('A' <= c <= 'Z') || ('0' <= c <= '9') || c == '_'
  }

  /** The lookahead `[^>]*\bloading=` at the start of `r`, where `prev` is the
      character just before `r`: a `loading=` starts before the first `>` and
      is not preceded by a word character. */
  predicate LoadingAhead(prev: char, r: string)
    decreases |r|
  {
    if r == [] || r[0] == '>' then false
    else (StartsWith(r, "loading=") && !IsWordChar(prev)) || LoadingAhead(r[0], r[1..])
  }

  /** Where a match starting at the head of `s` ends: the index of its `>`.
      There is one when `s` opens with `<img`, no word-bounded `loading=`
      comes before the next `>`, and there is a next `>`. */
  function TagAt(s: string): (e: Option<nat>)
    ensures e.Some? <==> StartsWith(s, "<img") && !LoadingAhead('g', s[4..]) && '>' in s[4..]
    ensures e.Some? ==> 4 <= e.value < |s| && s[e.value] == '>' && '>' !in s[4..e.value]
  {
    if StartsWith(s, "<img") && !LoadingAhead('g', s[4..]) && '>' in s[4..]
    then Some(4 + IndexOf(s[4..], '>'))
    else None
  }

  /** The replacement for a match whose group 1 is `attrs`. */
  function Tag(attrs: string): (t: string)
    ensures |t| == |attrs| + 20
    ensures StartsWith(t, "<img") && t[|t| - 1] == '>'
  {
    "<img" + LazyAttr + attrs + ">"
  }

  /** The `gsub` over a whole document. */
  function Lazy(s: string): (r: string)
    ensures |r| >= |s|
    ensures s != [] ==> r != [] && r[0] == s[0]
    decreases |s|
  {
    if s == [] then []
    else match TagAt(s)
      case Some(e) => Tag(s[4..e]) + Lazy(s[e + 1..])
      case None => [s[0]] + Lazy(s[1..])
  }

  /** Only `.html` outputs are rewritten (`next unless doc.output_ext == '.html'`). */
  function PostRender(outputExt: string, output: string): (r: string)
    ensures outputExt == ".html" ==> r == Lazy(output)
    ensures outputExt != ".html" ==> r == output
  {
    if outputExt == ".html" then Lazy(output) else output
  }

  /** The number of tags `Lazy` rewrites. */
  function Rewrites(s: string): nat
    decreases |s|
  {
    if s == [] then 0
    else match TagAt(s)
      case Some(e) => 1 + Rewrites(s[e + 1..])
      case None => Rewrites(s[1..])
  }

  lemma StartsWithCons(c: char, t: string, p: string)
    ensures StartsWith([c] + t, [c] + p) <==> StartsWith(t, p)
  {
    if |p| <= |t| {
      var a := ([c] + t)[..|p| + 1];
      assert a == [c] + t[..|p|];
      assert a[1..] == t[..|p|];
      assert ([c] + p)[1..] == p;
    }
  }

  /** Only a `<` can open a match. */
  lemma HeadNotLt(s: string)
    requires s != [] && s[0] != '<'
    ensures TagAt(s).None?
  {
    assert |s| >= 4 ==> s[..4][0] == s[0];
  }

  lemma LazyCons(c: char, r: string)
    requires TagAt([c] + r).None?
    ensures Lazy([c] + r) == [c] + Lazy(r)
  {
    assert ([c] + r)[1..] == r;
  }

  lemma LazyMatched(s: string, e: nat)
    requires TagAt(s) == Some(e)
    ensures Lazy(s) == Tag(s[4..e]) + Lazy(s[e + 1..])
    ensures Rewrites(s) == 1 + Rewrites(s[e + 1..])
  {
  }

  lemma LazyUnmatched(s: string)
    requires s != [] && TagAt(s).None?
    ensures Lazy(s) == [s[0]] + Lazy(s[1..])
    ensures Rewrites(s) == Rewrites(s[1..])
  {
  }

  lemma {:induction false} IndexOfFirst(s: string, c: char, i: nat)
    requires i < |s| && s[i] == c && c !in s[..i]
    ensures c in s && IndexOf(s, c) == i
  {
    if i > 0 {
      assert s[1..][i - 1] == c;
      assert s[1..][..i - 1] == s[1..i];
      IndexOfFirst(s[1..], c, i - 1);
    }
  }

  // ── Local behaviour ─────────────────────────────────────────────────────────

  /** Text without `<` is copied unchanged, and what follows it is rewritten
      on its own. */
  lemma {:induction false} NoLtPass(u: string, t: string)
    requires '<' !in u
    ensures Lazy(u + t) == u + Lazy(t)
    decreases |u|
  {
    if u != [] {
      var s := u + t;
      assert s[0] == u[0] && s[1..] == u[1..] + t;
      assert TagAt(s).None?;
      LazyUnmatched(s);
      NoLtPass(u[1..], t);
      calc {
        Lazy(s);
        [u[0]] + Lazy(u[1..] + t);
        [u[0]] + (u[1..] + Lazy(t));
        { assert [u[0]] + u[1..] == u; }
        u + Lazy(t);
      }
    } else {
      assert u + t == t;
    }
  }

  /** A document with no `>` holds no match and is left unchanged. */
  lemma {:induction false} NoGtFixed(s: string)
    requires '>' !in s
    ensures Lazy(s) == s
    decreases |s|
  {
    if s != [] {
      assert TagAt(s).None?;
      assert '>' !in s[1..];
      NoGtFixed(s[1..]);
    }
  }

  /** The lookahead never looks past the first `>`. */
  lemma {:induction false} LoadingAheadStops(prev: char, a: string, x: string)
    requires '>' !in a
    ensures LoadingAhead(prev, a + ">" + x) == LoadingAhead(prev, a)
    decreases |a|
  {
    var r := a + ">" + x;
    if a != [] {
      assert r[0] == a[0];
      if |a| >= 8 {
        assert r[..8] == a[..8];
      } else {
        assert r[|a|] == '>';
        assert |r| >= 8 ==> r[..8][|a|] == '>';
      }
      assert r[1..] == a[1..] + ">" + x;
      LoadingAheadStops(a[0], a[1..], x);
    } else {
      assert r[0] == '>';
    }
  }

  /** A tag with no word-bounded `loading=` gets `loading="lazy"` right after
      `<img`, and the text after it is rewritten on its own. */
  lemma TagRewritten(attrs: string, x: string)
    requires '>' !in attrs && !LoadingAhead('g', attrs)
    ensures Lazy("<img" + attrs + ">" + x) == Tag(attrs) + Lazy(x)
  {
    var s := "<img" + attrs + ">" + x;
    assert s[4..] == attrs + ">" + x;
    LoadingAheadStops('g', attrs, x);
    assert s[4..][|attrs|] == '>' && s[4..][..|attrs|] == attrs;
    IndexOfFirst(s[4..], '>', |attrs|);
    var e := TagAt(s).value;
    assert e == 4 + |attrs|;
    assert s[4..e] == attrs;
    assert s[e + 1..] == x;
  }

  /** A tag that already carries a word-bounded `loading=` (an eager image,
      say) is left as it is, provided no `<` sits inside it. */
  lemma TagKept(attrs: string, x: string)
    requires '>' !in attrs && '<' !in attrs && LoadingAhead('g', attrs)
    ensures Lazy("<img" + attrs + ">" + x) == "<img" + attrs + ">" + Lazy(x)
  {
    var r := attrs + ">" + x;
    assert "<img" + attrs + ">" + x == "<img" + r;
    LoadingAheadStops('g', attrs, x);
    TagAfterImg(r);
    var a := attrs + ">";
    assert '<' !in a;
    AppendAssoc("<img", a, x);
    ImgSkipped(a, x);
    AppendAssoc("<img", attrs, ">");
  }

  /** An `<img` whose tag is not matched is copied up to the next `<`. */
  lemma ImgSkipped(a: string, x: string)
    requires '<' !in a && TagAt("<img" + a + x).None?
    ensures Lazy("<img" + a + x) == "<img" + a + Lazy(x)
  {
    var u := "img" + a;
    assert ['<'] + "img" == "<img";
    AppendAssoc(['<'], "img", a);
    AppendAssoc(['<'], u, x);
    LazyCons('<', u + x);
    assert '<' !in u;
    NoLtPass(u, x);
    AppendAssoc(['<'], u, Lazy(x));
  }

  /** Each rewritten tag grows by exactly the 15 characters of ` loading="lazy"`. */
  lemma {:induction false} LazyLength(s: string)
    ensures |Lazy(s)| == |s| + 15 * Rewrites(s)
    decreases |s|
  {
    if s != [] {
      match TagAt(s)
      case Some(e) =>
        LazyMatched(s, e);
        LazyLength(s[e + 1..]);
      case None =>
        LazyUnmatched(s);
        LazyLength(s[1..]);
    }
  }

  /** The document is unchanged exactly when no tag is rewritten. */
  lemma {:induction false} LazyUnchangedIff(s: string)
    ensures Lazy(s) == s <==> Rewrites(s) == 0
    decreases |s|
  {
    LazyLength(s);
    if s != [] && TagAt(s).None? {
      LazyUnchangedIff(s[1..]);
      assert Lazy(s) == [s[0]] + Lazy(s[1..]);
      if Lazy(s) == s {
        assert Lazy(s[1..]) == Lazy(s)[1..];
      }
    }
  }

  // ── Idempotence ─────────────────────────────────────────────────────────────

  /** No `<` appears between an `<img` and the next `>`: the attribute text of
      an image tag holds no `<`. */
  predicate ImgClean(s: string)
    decreases |s|
  {
    s == [] ||
    ((StartsWith(s, "<img") && '>' in s[4..] ==> '<' !in s[4..][..IndexOf(s[4..], '>')])
     && ImgClean(s[1..]))
  }

  lemma {:induction false} ImgCleanSuffix(s: string, k: nat)
    requires ImgClean(s) && k <= |s|
    ensures ImgClean(s[k..])
    decreases k
  {
    if k > 0 {
      ImgCleanSuffix(s[1..], k - 1);
      assert s[1..][k - 1..] == s[k..];
    }
  }

  /** The inserted ` loading="lazy"` satisfies the lookahead. */
  lemma LoadingAfterAttr(x: string)
    ensures LoadingAhead('g', LazyAttr + x)
  {
    var r := LazyAttr + x;
    assert r[0] == ' ';
    assert r[1..] == "loading=\"lazy\"" + x;
    assert r[1..][..8] == "loading=";
    assert LoadingAhead(' ', r[1..]);
  }

  /** A second pass leaves a rewritten tag alone: it now carries a
      word-bounded `loading=`. */
  lemma TagPassesAgain(attrs: string, t: string)
    requires '>' !in attrs && '<' !in attrs
    ensures Lazy(Tag(attrs) + t) == Tag(attrs) + Lazy(t)
  {
    var a := LazyAttr + attrs + ">";
    assert Tag(attrs) == "<img" + a;
    TagNotRematched(attrs, t);
    assert '<' !in a;
    ImgSkipped(a, t);
  }

  lemma TagNotRematched(attrs: string, t: string)
    ensures TagAt(Tag(attrs) + t).None?
  {
    var s := Tag(attrs) + t;
    assert s[..4] == "<img";
    assert s[4..] == LazyAttr + (attrs + ">" + t);
    LoadingAfterAttr(attrs + ">" + t);
  }

  /** The text after an `i`, `im` or other head that is not `img` never turns
      into `img` under the rewrite. */
  lemma NotImgStays(t: string)
    requires !StartsWith(t, "img")
    ensures !StartsWith(Lazy(t), "img")
  {
    if t != [] && t[0] == 'i' {
      HeadNotLt(t);
      LazyUnmatched(t);
      var t1 := t[1..];
      if t1 != [] && t1[0] == 'm' {
        HeadNotLt(t1);
        LazyUnmatched(t1);
        var t2 := t1[1..];
        assert t2 != [] ==> t2[0] != 'g' by {
          assert |t| >= 3 ==> t[..3] == [t[0], t1[0], t2[0]];
        }
        assert 2 < |Lazy(t)| ==> Lazy(t)[2] == Lazy(t2)[0];
        DiffersAt(Lazy(t), "img", 2);
      } else {
        assert 1 < |Lazy(t)| ==> Lazy(t)[1] == Lazy(t1)[0];
        DiffersAt(Lazy(t), "img", 1);
      }
    } else {
      DiffersAt(Lazy(t), "img", 0);
    }
  }

  /** A string that differs from `p` at some place of `p` does not start with it. */
  lemma DiffersAt(x: string, p: string, k: nat)
    requires k < |p| && (k < |x| ==> x[k] != p[k])
    ensures !StartsWith(x, p)
  {
    if |p| <= |x| {
      assert x[..|p|][k] == x[k];
    }
  }

  /** A `<` that does not open `<img` still does not after the rewrite. */
  lemma NoTagAfterPassNotImg(s: string)
    requires s != [] && s[0] == '<' && !StartsWith(s, "<img")
    ensures !StartsWith([s[0]] + Lazy(s[1..]), "<img")
  {
    assert s == [s[0]] + s[1..];
    assert "<img" == ['<'] + "img";
    StartsWithCons('<', s[1..], "img");
    NotImgStays(s[1..]);
    StartsWithCons('<', Lazy(s[1..]), "img");
  }

  /** Up to its first `>`, a stretch without `<` is copied unchanged. */
  lemma LazyUpToGt(a: string, tail: string)
    requires '<' !in a
    ensures Lazy(a + ">" + tail) == a + ">" + Lazy(tail)
  {
    AppendAssoc(a, ">", tail);
    NoLtPass(a, ">" + tail);
    HeadNotLt(">" + tail);
    LazyCons('>', tail);
    AppendAssoc(a, ">", Lazy(tail));
  }

  /** After an explicit `<img`, a match depends only on the lookahead and on a `>`. */
  lemma TagAfterImg(x: string)
    ensures TagAt("<img" + x).None? <==> LoadingAhead('g', x) || '>' !in x
  {
    var s := "<img" + x;
    assert s[..4] == "<img" && s[4..] == x;
  }

  /** Rewriting what follows the first `>` does not change the lookahead. */
  lemma LoadingAheadKept(a: string, tail: string)
    requires '>' !in a
    ensures LoadingAhead('g', a + ">" + Lazy(tail)) == LoadingAhead('g', a + ">" + tail)
  {
    LoadingAheadStops('g', a, tail);
    LoadingAheadStops('g', a, Lazy(tail));
  }

  lemma ImgHeadNoTag(r: string)
    requires TagAt("<img" + r).None?
    requires '>' in r ==> '<' !in r[..IndexOf(r, '>')]
    ensures TagAt("<img" + Lazy(r)).None?
  {
    if '>' !in r {
      NoGtFixed(r);
    } else {
      ImgHeadClosed(r);
    }
  }

  lemma ImgHeadClosed(r: string)
    requires TagAt("<img" + r).None?
    requires '>' in r && '<' !in r[..IndexOf(r, '>')]
    ensures TagAt("<img" + Lazy(r)).None?
  {
    var e := IndexOf(r, '>');
    var a, tail := r[..e], r[e + 1..];
    SplitAt(r, e);
    TagAfterImg(r);
    LoadingAheadKept(a, tail);
    LazyUpToGt(a, tail);
    TagAfterImg(Lazy(r));
  }

  /** An `<img` that is not rewritten, because its tag is never closed or
      already says `loading=`, is not rewritten by the second pass. */
  lemma NoTagAfterPassImg(s: string)
    requires StartsWith(s, "<img") && TagAt(s).None? && ImgClean(s)
    ensures TagAt([s[0]] + Lazy(s[1..])).None?
  {
    var r := s[4..];
    assert [s[0]] + Lazy(s[1..]) == "<img" + Lazy(r) by {
      assert s[1..] == "img" + r;
      NoLtPass("img", r);
      assert ['<'] + "img" == "<img";
      AppendAssoc(['<'], "img", Lazy(r));
    }
    assert TagAt("<img" + r).None? by {
      assert s == "<img" + r;
    }
    ImgHeadNoTag(r);
  }

  /** Where the first pass found no match, the second pass finds none either. */
  lemma NoTagAfterPass(s: string)
    requires s != [] && TagAt(s).None? && ImgClean(s)
    ensures TagAt([s[0]] + Lazy(s[1..])).None?
  {
    if s[0] == '<' {
      if StartsWith(s, "<img") {
        NoTagAfterPassImg(s);
      } else {
        NoTagAfterPassNotImg(s);
      }
    } else {
      HeadNotLt([s[0]] + Lazy(s[1..]));
    }
  }

  /** The rewrite is idempotent on documents whose image tags hold no `<`. */
  lemma {:induction false} LazyIdempotent(s: string)
    requires ImgClean(s)
    ensures Lazy(Lazy(s)) == Lazy(s)
    decreases |s|
  {
    if s != [] {
      match TagAt(s)
      case Some(e) =>
        ImgCleanSuffix(s, e + 1);
        LazyIdempotent(s[e + 1..]);
        assert s[4..e] == s[4..][..IndexOf(s[4..], '>')];
        TagPassesAgain(s[4..e], Lazy(s[e + 1..]));
      case None =>
        LazyIdempotent(s[1..]);
        NoTagAfterPass(s);
        var out := [s[0]] + Lazy(s[1..]);
        assert out[1..] == Lazy(s[1..]);
    }
  }

  lemma PostRenderIdempotent(outputExt: string, output: string)
    requires ImgClean(output)
    ensures PostRender(outputExt, PostRender(outputExt, output)) == PostRender(outputExt, output)
  {
    if outputExt == ".html" {
      LazyIdempotent(output);
    }
  }

  /** `<img` itself never satisfies the lookahead. */
  lemma NoLoadingInImg(b: string)
    requires !LoadingAhead('g', b)
    ensures !LoadingAhead('g', "<img" + b)
  {
    var x := "<img" + b;
    assert x[1..] == "img" + b && x[1..][1..] == "mg" + b && x[1..][1..][1..] == "g" + b;
    assert x[1..][1..][1..][1..] == b;
    assert !StartsWith("g" + b, "loading=") by { assert |"g" + b| >= 8 ==> ("g" + b)[..8][0] == 'g'; }
    assert !StartsWith("mg" + b, "loading=") by { assert |"mg" + b| >= 8 ==> ("mg" + b)[..8][0] == 'm'; }
    assert !StartsWith("img" + b, "loading=") by { assert |"img" + b| >= 8 ==> ("img" + b)[..8][0] == 'i'; }
    assert !StartsWith(x, "loading=") by { assert |x| >= 8 ==> x[..8][0] == '<'; }
    assert !LoadingAhead('m', "g" + b);
    assert !LoadingAhead('i', "mg" + b);
    assert !LoadingAhead('<', "img" + b);
  }

  /** The first pass over `<img<img…>` rewrites the outer tag only. */
  lemma OnceNested(b: string)
    requires '>' !in b && !LoadingAhead('g', b)
    ensures Lazy("<img<img" + b + ">") == Tag("<img" + b)
  {
    var attrs := "<img" + b;
    NoLoadingInImg(b);
    TagRewritten(attrs, []);
    assert "<img" + attrs + ">" + [] == "<img" + attrs + ">";
    assert "<img<img" == "<img" + "<img";
    AppendAssoc("<img", "<img", b);
  }

  lemma LazyBareTag(b: string)
    requires '>' !in b && !LoadingAhead('g', b)
    ensures Lazy("<img" + b + ">") == Tag(b)
  {
    TagRewritten(b, []);
    assert "<img" + b + ">" + [] == "<img" + b + ">";
  }

  lemma AttrNotRematched(x: string)
    ensures TagAt("<img" + LazyAttr + x).None?
  {
    assert "<img" + LazyAttr + x == "<img" + (LazyAttr + x);
    TagAfterImg(LazyAttr + x);
    LoadingAfterAttr(x);
  }

  /** The second pass skips the outer tag, which now carries `loading=`. */
  lemma OuterSkipped(inner: string)
    ensures Lazy("<img" + LazyAttr + inner) == "<img" + LazyAttr + Lazy(inner)
  {
    AttrNotRematched(inner);
    ImgSkipped(LazyAttr, inner);
  }

  /** The second pass rewrites the inner one. */
  lemma TwiceNested(b: string)
    requires '>' !in b && !LoadingAhead('g', b)
    ensures Lazy(Tag("<img" + b)) == "<img" + LazyAttr + Tag(b)
  {
    var inner := "<img" + b + ">";
    assert Tag("<img" + b) == "<img" + LazyAttr + inner;
    OuterSkipped(inner);
    LazyBareTag(b);
  }

  /** Without the clean-tag condition a second pass can rewrite again: in
      `<img<img>` (or with any attribute text `b` inside the inner tag) the
      first pass rewrites the outer tag and resumes after it, the second
      skips the outer tag and rewrites the inner `<img`. */
  lemma LazyNotIdempotent(b: string)
    requires '>' !in b && !LoadingAhead('g', b)
    ensures !ImgClean("<img<img" + b + ">")
    ensures Lazy(Lazy("<img<img" + b + ">")) != Lazy("<img<img" + b + ">")
  {
    var s := "<img<img" + b + ">";
    assert s[..4] == "<img";
    assert s[4..] == "<img" + b + ">";
    IndexOfFirst(s[4..], '>', 4 + |b|);
    assert s[4..][..4 + |b|][0] == '<';
    OnceNested(b);
    TwiceNested(b);
    assert |Lazy(Lazy(s))| == 4 + 15 + 20 + |b|;
    assert |Lazy(s)| == 24 + |b|;
  }
}
