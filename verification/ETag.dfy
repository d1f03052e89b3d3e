/**
 The conditional-read decision: etagMatches and opaqueETag (httpapi/delivery.go:139-156) against
 the If-None-Match lists of section 13.1.2 of RFC 9110, compared weakly as in its section 8.8.3.2.
 */
module ETag {

  // ---------------------------------------------------------------- the code

  /** unicode.IsSpace: what strings.TrimSpace strips. */
  predicate IsSpace(c: char) {
    || '\t' <= c <= '\r' || c == ' ' || c == '\U{85}' || c == '\U{A0}' || c == '\U{1680}'
    || '\U{2000}' <= c <= '\U{200A}' || c == '\U{2028}' || c == '\U{2029}' || c == '\U{202F}'
    || c == '\U{205F}' || c == '\U{3000}'
  }

  function TrimLeft(s: string): string {
    if s != "" && IsSpace(s[0]) then TrimLeft(s[1..]) else s
  }

  function TrimRight(s: string): string {
    if s != "" && IsSpace(s[|s| - 1]) then TrimRight(s[..|s| - 1]) else s
  }

  function Trim(s: string): string {
    TrimRight(TrimLeft(s))
  }

  /** strings.Split(s, ","). */
  function Split(s: string): (ps: seq<string>)
    ensures ps != []
  {
    if s == "" then [""]
    else if s[0] == ',' then [""] + Split(s[1..])
    else var rest := Split(s[1..]); [[s[0]] + rest[0]] + rest[1..]
  }

  predicate WeakPrefix(s: string) {
    |s| >= 2 && (s[0] == 'W' || s[0] == 'w') && s[1] == '/'
  }

  function OpaqueETag(value: string): string {
    var v := Trim(value);
    if WeakPrefix(v) then Trim(v[2..]) else v
  }

  predicate CandidateMatches(candidate: string, current: string) {
    var c := Trim(candidate);
    c == "*" || (OpaqueETag(c) == current && current != "")
  }

  /** etagMatches: some element of the comma-separated header matches. */
  method EtagMatches(ifNoneMatch: string, etag: string) returns (found: bool)
    ensures found <==> exists c :: c in Split(ifNoneMatch) && CandidateMatches(c, OpaqueETag(etag))
  {
    var current := OpaqueETag(etag);
    var candidates := Split(ifNoneMatch);
    var i := 0;
    while i < |candidates|
      invariant 0 <= i <= |candidates|
      invariant forall c :: c in candidates[..i] ==> !CandidateMatches(c, current)
    {
      if CandidateMatches(candidates[i], current) {
        return true;
      }
      i := i + 1;
    }
    assert candidates[..i] == candidates;
    found := false;
  }

  ghost predicate Matches(ifNoneMatch: string, etag: string) {
    exists c :: c in Split(ifNoneMatch) && CandidateMatches(c, OpaqueETag(etag))
  }

  // ---------------------------------------------------------------- entity tags and lists

  /** An entity tag: `name` is what stands between the quotes. */
  datatype Tag = Tag(weak: bool, name: string)

  /** A list element: optional whitespace around a tag. */
  datatype Element = Element(before: string, tag: Tag, after: string)

  /** The characters of an entity tag: no quote, no space, no control; anything beyond ASCII. */
  predicate Plain(s: string) {
    forall k :: 0 <= k < |s| ==> s[k] > ' ' && s[k] != '"' && s[k] != '\U{7F}'
  }

  predicate Blank(s: string) {
    forall k :: 0 <= k < |s| ==> s[k] == ' ' || s[k] == '\t'
  }

  predicate WellFormed(e: Element) {
    Blank(e.before) && Plain(e.tag.name) && Blank(e.after)
  }

  function Render(t: Tag): string {
    (if t.weak then "W/" else "") + ("\"" + t.name + "\"")
  }

  function ElementText(e: Element): string {
    e.before + Render(e.tag) + e.after
  }

  function Header(es: seq<Element>): string
    requires es != []
  {
    if |es| == 1 then ElementText(es[0]) else ElementText(es[0]) + "," + Header(es[1..])
  }

  /** Between two commas of the opaque part there is a star, alone but for spaces. */
  ghost predicate StarInside(o: string) {
    exists k :: 0 < k < |Split(o)| - 1 && Trim(Split(o)[k]) == "*"
  }

  // ---------------------------------------------------------------- splitting

  lemma {:induction false} SplitAtComma(a: string, b: string)
    ensures Split(a + "," + b) == Split(a) + Split(b)
  {
    var s := a + "," + b;
    if a != "" {
      assert s[1..] == a[1..] + "," + b;
      SplitAtComma(a[1..], b);
    } else {
      assert s[1..] == b;
    }
  }

  lemma {:induction false} SplitWhole(s: string)
    requires ',' !in s
    ensures Split(s) == [s]
  {
    if s != "" {
      SplitWhole(s[1..]);
      assert [s[0]] + s[1..] == s;
    }
  }

  lemma {:induction false} SplitAfter(a: string, x: string)
    requires ',' !in a
    ensures Split(a + x) == [a + Split(x)[0]] + Split(x)[1..]
  {
    if a == "" {
      assert a + x == x;
      assert a + Split(x)[0] == Split(x)[0];
    } else {
      assert (a + x)[1..] == a[1..] + x;
      SplitAfter(a[1..], x);
      assert [a[0]] + (a[1..] + Split(x)[0]) == a + Split(x)[0];
    }
  }

  lemma {:induction false} SplitBefore(x: string, b: string)
    requires ',' !in b
    ensures var ps := Split(x); Split(x + b) == ps[..|ps| - 1] + [ps[|ps| - 1] + b]
  {
    if x == "" {
      assert x + b == b;
      SplitWhole(b);
    } else {
      assert (x + b)[1..] == x[1..] + b;
      SplitBefore(x[1..], b);
      var ps, qs := Split(x), Split(x[1..]);
      if x[0] == ',' {
        assert ps[..|ps| - 1] == [""] + qs[..|qs| - 1];
      } else if |qs| == 1 {
        assert [x[0]] + (qs[0] + b) == ([x[0]] + qs[0]) + b;
      } else {
        assert ps[..|ps| - 1] == [ps[0]] + qs[1..|qs| - 1];
      }
    }
  }

  lemma {:induction false} PiecesArePlain(x: string, p: string)
    requires Plain(x) && p in Split(x)
    ensures Plain(p)
  {
    if x != "" {
      var rest := Split(x[1..]);
      if p in rest {
        PiecesArePlain(x[1..], p);
      } else if x[0] != ',' {
        PiecesArePlain(x[1..], rest[0]);
      }
    }
  }

  // ---------------------------------------------------------------- trimming

  lemma {:induction false} TrimLeftBlank(b: string, s: string)
    requires Blank(b)
    ensures TrimLeft(b + s) == TrimLeft(s)
  {
    if b == "" {
      assert b + s == s;
    } else {
      assert (b + s)[1..] == b[1..] + s;
      TrimLeftBlank(b[1..], s);
    }
  }

  lemma {:induction false} TrimRightBlank(s: string, b: string)
    requires Blank(b)
    ensures TrimRight(s + b) == TrimRight(s)
  {
    if b == "" {
      assert s + b == s;
    } else {
      var n := |b| - 1;
      assert (s + b)[..|s + b| - 1] == s + b[..n];
      assert (s + b)[|s + b| - 1] == b[n];
      TrimRightBlank(s, b[..n]);
    }
  }

  /** A text that begins and ends with non-spaces survives trimming. */
  lemma TrimCore(before: string, core: string, after: string)
    requires Blank(before) && Blank(after) && core != "" && !IsSpace(core[0]) && !IsSpace(core[|core| - 1])
    ensures Trim(before + core + after) == core
  {
    assert before + core + after == before + (core + after);
    TrimLeftBlank(before, core + after);
    TrimRightBlank(core, after);
  }

  /** Trimming keeps a contiguous part. */
  lemma {:induction false} TrimLeftCuts(s: string) returns (i: nat)
    ensures i <= |s| && TrimLeft(s) == s[i..]
    ensures forall k :: 0 <= k < i ==> IsSpace(s[k])
  {
    if s != "" && IsSpace(s[0]) {
      i := TrimLeftCuts(s[1..]);
      i := i + 1;
      assert s[1..][i - 1..] == s[i..];
      assert forall k :: 1 <= k < i ==> s[1..][k - 1] == s[k];
    } else {
      i := 0;
    }
  }

  lemma {:induction false} TrimRightCuts(s: string) returns (j: nat)
    ensures j <= |s| && TrimRight(s) == s[..j]
    ensures forall k :: j <= k < |s| ==> IsSpace(s[k])
  {
    if s != "" && IsSpace(s[|s| - 1]) {
      j := TrimRightCuts(s[..|s| - 1]);
      assert s[..|s| - 1][..j] == s[..j];
    } else {
      j := |s|;
    }
  }

  lemma TrimCuts(s: string) returns (i: nat, j: nat)
    ensures i <= j <= |s| && Trim(s) == s[i..j]
    ensures forall k :: 0 <= k < i || j <= k < |s| ==> IsSpace(s[k])
  {
    i := TrimLeftCuts(s);
    var n := TrimRightCuts(s[i..]);
    j := i + n;
    assert s[i..][..n] == s[i..j];
    assert forall k :: j <= k < |s| ==> s[i..][k - i] == s[k];
  }

  // ---------------------------------------------------------------- one candidate

  function Quoted(v: string): string {
    "\"" + v + "\""
  }

  predicate TwoQuotes(c: string) {
    exists p, q :: 0 <= p < q < |c| && c[p] == '"' && c[q] == '"'
  }

  lemma CutKeepsQuotes(c: string, i: nat, j: nat)
    requires i <= j <= |c| && TwoQuotes(c[i..j])
    ensures TwoQuotes(c)
  {
    var p, q :| 0 <= p < q < j - i && c[i..j][p] == '"' && c[i..j][q] == '"';
    assert c[i + p] == '"' && c[i + q] == '"';
  }

  lemma TrimKeepsQuotes(c: string)
    requires TwoQuotes(Trim(c))
    ensures TwoQuotes(c)
  {
    var i, j := TrimCuts(c);
    CutKeepsQuotes(c, i, j);
  }

  /** A candidate without two quotes names nothing. */
  lemma OpaqueKeepsQuotes(c: string)
    requires TwoQuotes(OpaqueETag(c))
    ensures TwoQuotes(c)
  {
    var v := Trim(c);
    if WeakPrefix(v) {
      TrimKeepsQuotes(v[2..]);
      assert v[2..] == v[2..|v|];
      CutKeepsQuotes(v, 2, |v|);
    }
    TrimKeepsQuotes(c);
  }

  lemma UnquotedNamesNothing(c: string, v: string)
    requires !TwoQuotes(c)
    ensures OpaqueETag(Trim(c)) != Quoted(v)
  {
    var q := Quoted(v);
    assert q[0] == '"' && q[|q| - 1] == '"';
    if OpaqueETag(Trim(c)) == q {
      OpaqueKeepsQuotes(Trim(c));
      TrimKeepsQuotes(c);
    }
  }

  /** A candidate with a quote is not the star. */
  lemma QuoteIsNoStar(c: string, k: nat)
    requires k < |c| && c[k] == '"'
    ensures Trim(c) != "*"
  {
    var i, j := TrimCuts(c);
    assert i <= k < j;
    assert c[i..j][k - i] == '"';
  }

  lemma OpaqueOfRendered(t: Tag)
    requires Plain(t.name)
    ensures Trim(Render(t)) == Render(t) && OpaqueETag(Render(t)) == Quoted(t.name)
  {
    var r, q := Render(t), Quoted(t.name);
    assert q[0] == '"' && q[|q| - 1] == '"';
    assert !IsSpace(r[0]) && !IsSpace(r[|r| - 1]);
    assert "" + r + "" == r && "" + q + "" == q;
    TrimCore("", r, "");
    TrimCore("", q, "");
    if t.weak {
      assert r[2..] == q;
    } else {
      assert r == q;
    }
  }

  lemma QuotedIsInjective(a: string, b: string)
    ensures Quoted(a) == Quoted(b) <==> a == b
  {
    assert Quoted(a)[1..|Quoted(a)| - 1] == a;
    assert Quoted(b)[1..|Quoted(b)| - 1] == b;
  }

  /** A tag without commas is one candidate, and it matches iff it has the current name. */
  lemma WholeElementMatches(e: Element, v: string)
    requires WellFormed(e)
    ensures CandidateMatches(ElementText(e), Quoted(v)) <==> e.tag.name == v
  {
    var r := Render(e.tag);
    OpaqueOfRendered(e.tag);
    assert r[|r| - 1] == '"';
    TrimCore(e.before, r, e.after);
    QuotedIsInjective(e.tag.name, v);
    assert r != "*";
  }

  // ---------------------------------------------------------------- one element

  function Opening(e: Element): string {
    e.before + (if e.tag.weak then "W/" else "") + "\""
  }

  function Closing(e: Element): string {
    "\"" + e.after
  }

  /** How an element falls apart at the commas of its tag. */
  lemma ElementPieces(e: Element)
    requires WellFormed(e)
    ensures var ps := Split(e.tag.name);
            Split(ElementText(e)) ==
              if |ps| == 1 then [ElementText(e)]
              else [Opening(e) + ps[0]] + ps[1..|ps| - 1] + [ps[|ps| - 1] + Closing(e)]
  {
    var name, ps := e.tag.name, Split(e.tag.name);
    assert ElementText(e) == Opening(e) + (name + Closing(e));
    SplitBefore(name, Closing(e));
    SplitAfter(Opening(e), name + Closing(e));
    if |ps| == 1 {
      OnePieceIsWhole(name);
      assert Opening(e) + (ps[0] + Closing(e)) == ElementText(e);
    } else {
      assert Split(name + Closing(e))[1..] == ps[1..|ps| - 1] + [ps[|ps| - 1] + Closing(e)];
    }
  }

  lemma {:induction false} OnePieceIsWhole(s: string)
    requires |Split(s)| == 1
    ensures Split(s) == [s]
  {
    if s != "" {
      OnePieceIsWhole(s[1..]);
      assert [s[0]] + s[1..] == s;
    }
  }

  lemma FirstPieceFails(e: Element, p: string, v: string)
    requires WellFormed(e) && Plain(p)
    ensures !CandidateMatches(Opening(e) + p, Quoted(v))
  {
    var c, n := Opening(e) + p, |Opening(e)| - 1;
    assert c[n] == '"';
    assert forall k :: 0 <= k < |c| && k != n ==> c[k] != '"';
    QuoteIsNoStar(c, n);
    UnquotedNamesNothing(c, v);
  }

  lemma LastPieceFails(e: Element, p: string, v: string)
    requires WellFormed(e) && Plain(p)
    ensures !CandidateMatches(p + Closing(e), Quoted(v))
  {
    var c, n := p + Closing(e), |p|;
    assert c[n] == '"';
    assert forall k :: 0 <= k < |c| && k != n ==> c[k] != '"';
    QuoteIsNoStar(c, n);
    UnquotedNamesNothing(c, v);
  }

  lemma MiddlePieceMatches(p: string, v: string)
    requires Plain(p)
    ensures CandidateMatches(p, Quoted(v)) <==> Trim(p) == "*"
  {
    assert !TwoQuotes(p);
    UnquotedNamesNothing(p, v);
  }

  ghost predicate SomeMatches(cs: seq<string>, current: string) {
    exists c :: c in cs && CandidateMatches(c, current)
  }

  /** The pieces of a tag with commas match only in the middle, and there only as stars. */
  lemma PieceMatches(e: Element, v: string, k: nat)
    requires WellFormed(e) && |Split(e.tag.name)| > 1 && k < |Split(e.tag.name)|
    ensures var ps, cs := Split(e.tag.name), Split(ElementText(e));
            && |cs| == |ps|
            && (CandidateMatches(cs[k], Quoted(v)) <==> 0 < k < |ps| - 1 && Trim(ps[k]) == "*")
  {
    var ps := Split(e.tag.name);
    ElementPieces(e);
    PiecesArePlain(e.tag.name, ps[k]);
    if k == 0 {
      FirstPieceFails(e, ps[0], v);
    } else if k == |ps| - 1 {
      LastPieceFails(e, ps[k], v);
    } else {
      MiddlePieceMatches(ps[k], v);
    }
  }

  lemma PiecesMatch(e: Element, v: string)
    requires WellFormed(e) && |Split(e.tag.name)| > 1
    ensures SomeMatches(Split(ElementText(e)), Quoted(v)) <==> StarInside(e.tag.name)
  {
    var ps, cs := Split(e.tag.name), Split(ElementText(e));
    if StarInside(e.tag.name) {
      var k :| 0 < k < |ps| - 1 && Trim(ps[k]) == "*";
      PieceMatches(e, v, k);
      assert cs[k] in cs;
    }
    if c :| c in cs && CandidateMatches(c, Quoted(v)) {
      PieceMatches(e, v, 0);
      var k :| 0 <= k < |cs| && cs[k] == c;
      PieceMatches(e, v, k);
    }
  }

  lemma NameWithCommasDiffers(a: string, v: string)
    requires |Split(a)| > 1 && ',' !in v
    ensures a != v
  {
    SplitWhole(v);
  }

  lemma ElementMatches(e: Element, v: string)
    requires WellFormed(e) && ',' !in v
    ensures SomeMatches(Split(ElementText(e)), Quoted(v)) <==> e.tag.name == v || StarInside(e.tag.name)
  {
    if |Split(e.tag.name)| == 1 {
      ElementPieces(e);
      WholeElementMatches(e, v);
    } else {
      PiecesMatch(e, v);
      NameWithCommasDiffers(e.tag.name, v);
    }
  }

  // ---------------------------------------------------------------- the whole header

  ghost predicate Listed(es: seq<Element>, v: string) {
    exists k :: 0 <= k < |es| && (es[k].tag.name == v || StarInside(es[k].tag.name))
  }

  lemma {:induction false} HeaderMatches(es: seq<Element>, v: string)
    requires es != [] && (forall k :: 0 <= k < |es| ==> WellFormed(es[k])) && ',' !in v
    ensures SomeMatches(Split(Header(es)), Quoted(v)) <==> Listed(es, v)
  {
    ElementMatches(es[0], v);
    if |es| > 1 {
      SplitAtComma(ElementText(es[0]), Header(es[1..]));
      HeaderMatches(es[1..], v);
      if Listed(es[1..], v) {
        var k :| 0 <= k < |es[1..]| && (es[1..][k].tag.name == v || StarInside(es[1..][k].tag.name));
        assert es[k + 1] == es[1..][k];
      }
      if Listed(es, v) {
        var k :| 0 <= k < |es| && (es[k].tag.name == v || StarInside(es[k].tag.name));
        assert k > 0 ==> es[1..][k - 1] == es[k];
      }
    }
  }

  /** A 304 is sent for a list of entity tags iff a listed tag weakly equals the current one, or (the
      code's deviation from the RFC) a listed tag has a star alone between two of its commas. */
  lemma NotModifiedIff(es: seq<Element>, v: string)
    requires es != [] && (forall k :: 0 <= k < |es| ==> WellFormed(es[k]))
    requires Plain(v) && ',' !in v
    ensures Matches(Header(es), Render(Tag(true, v))) <==>
            || (exists k :: 0 <= k < |es| && es[k].tag.name == v)
            || (exists k :: 0 <= k < |es| && StarInside(es[k].tag.name))
  {
    OpaqueOfRendered(Tag(true, v));
    HeaderMatches(es, v);
  }

  /** For tags without commas the decision is exactly weak comparison. */
  lemma NotModifiedIffNamed(es: seq<Element>, v: string)
    requires es != [] && (forall k :: 0 <= k < |es| ==> WellFormed(es[k]) && ',' !in es[k].tag.name)
    requires Plain(v) && ',' !in v
    ensures Matches(Header(es), Render(Tag(true, v))) <==> exists k :: 0 <= k < |es| && es[k].tag.name == v
  {
    NotModifiedIff(es, v);
    forall k | 0 <= k < |es| ensures !StarInside(es[k].tag.name) {
      SplitWhole(es[k].tag.name);
    }
  }

  lemma StarBetween(a: string, star: string, b: string)
    requires ',' !in a && ',' !in star && ',' !in b && Trim(star) == "*"
    ensures StarInside(a + "," + (star + "," + b))
  {
    SplitAtComma(a, star + "," + b);
    SplitAtComma(star, b);
    SplitWhole(a);
    SplitWhole(star);
    SplitWhole(b);
    assert Split(a + "," + (star + "," + b)) == [a, star, b];
    assert Trim(Split(a + "," + (star + "," + b))[1]) == "*";
  }

  /** The strong tag `o` alone in the header. */
  function Only(o: string): string {
    Header([Element("", Tag(false, o), "")])
  }

  lemma StarredTagMatchesAll(o: string, v: string)
    requires Plain(o) && StarInside(o) && Plain(v) && ',' !in v
    ensures Matches(Only(o), Render(Tag(true, v)))
  {
    var es := [Element("", Tag(false, o), "")];
    assert es[0].tag.name == o;
    NotModifiedIff(es, v);
  }

  const STARRED := "a,*,b"

  /** The deviation: the single strong tag "a,*,b" matches every snapshot. */
  lemma StarInsideATagMatchesAll(v: string)
    requires Plain(v) && ',' !in v
    ensures Matches(Only(STARRED), Render(Tag(true, v)))
  {
    assert STARRED == "a" + "," + ("*" + "," + "b");
    assert Trim("*") == "*" by {
      assert "" + "*" + "" == "*";
      TrimCore("", "*", "");
    }
    StarBetween("a", "*", "b");
    StarredTagMatchesAll(STARRED, v);
  }

  const PADDED_STAR := "\U{2003}*\U{2003}"
  const PADDED := "a,\U{2003}*\U{2003},b"

  lemma PaddedStarTrims()
    ensures Trim(PADDED_STAR) == "*"
  {
    assert PADDED_STAR[1..] == "*\U{2003}" && PADDED_STAR[1..][..1] == "*";
    assert TrimLeft(PADDED_STAR) == PADDED_STAR[1..];
    assert TrimRight(PADDED_STAR[1..]) == "*";
  }

  /** So does a tag whose star is padded with em spaces, which are legal in a tag and which the code trims. */
  lemma PaddedStarMatchesAll(v: string)
    requires Plain(v) && ',' !in v
    ensures Plain(PADDED) && Matches(Only(PADDED), Render(Tag(true, v)))
  {
    assert PADDED == "a" + "," + (PADDED_STAR + "," + "b");
    PaddedStarTrims();
    StarBetween("a", PADDED_STAR, "b");
    StarredTagMatchesAll(PADDED, v);
  }
}
