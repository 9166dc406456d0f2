/** Extracting and rewriting [[wikilinks]]. The pattern is "[[", one or more characters other
    than ']', then "]]"; matches are found from the left and do not overlap. */
module Wikilink {
  import opened Str

  // ----- the pattern -----

  /** The number of characters before the first ']'. */
  function RunLength(s: string): nat {
    if s == "" || s[0] == ']' then 0 else 1 + RunLength(s[1..])
  }

  /** The run before the first ']' is followed by "]]". */
  predicate Closes(s: string) {
    var k := RunLength(s);
    k + 1 < |s| && s[k] == ']' && s[k + 1] == ']'
  }

  /** A link begins at the first character. */
  predicate StartsLink(s: string) {
    |s| > 2 && s[0] == '[' && s[1] == '[' && s[2] != ']' && Closes(s[2..])
  }

  function LinkInner(s: string): string
    requires StartsLink(s)
  {
    RunBound(s[2..]);
    s[2..][..RunLength(s[2..])]
  }

  function FormatWikilink(target: string): string {
    "[[" + target + "]]"
  }

  lemma {:induction false} RunBound(s: string)
    ensures RunLength(s) <= |s| && ']' !in s[..RunLength(s)]
  {
    if s != "" && s[0] != ']' {
      RunBound(s[1..]);
      assert s[..RunLength(s)] == [s[0]] + s[1..][..RunLength(s[1..])];
    }
  }

  lemma {:induction false} RunOf(x: string, y: string)
    requires ']' !in x
    ensures RunLength(x + y) == |x| + RunLength(y)
  {
    if x == "" {
      assert x + y == y;
    } else {
      assert (x + y)[1..] == x[1..] + y;
      assert x[0] in x;
      RunOf(x[1..], y);
    }
  }

  /** Whatever text has the shape of a link at its start is found to be that link. */
  lemma FormatStartsLink(s: string, inner: string, rest: string)
    requires s == FormatWikilink(inner) + rest && inner != "" && ']' !in inner
    ensures StartsLink(s) && LinkInner(s) == inner
  {
    assert s[2..] == inner + ("]]" + rest);
    RunOf(inner, "]]" + rest);
    assert inner[0] in inner;
    assert s[2..][|inner|] == ']' && s[2..][|inner| + 1] == ']';
  }

  lemma LinkShape(s: string)
    requires StartsLink(s)
    ensures LinkInner(s) != "" && ']' !in LinkInner(s) && |s| >= |LinkInner(s)| + 4
    ensures s == FormatWikilink(LinkInner(s)) + s[|LinkInner(s)| + 4..]
  {
    RunBound(s[2..]);
  }

  /** The pattern without the scanner: "[[", a non-empty inner text free of ']', and "]]". */
  lemma StartsLinkIff(s: string)
    ensures StartsLink(s) <==>
            exists inner: string, rest: string ::
              s == FormatWikilink(inner) + rest && inner != "" && ']' !in inner
  {
    if StartsLink(s) { LinkShape(s); }
    if inner: string, rest: string :| s == FormatWikilink(inner) + rest && inner != "" && ']' !in inner {
      FormatStartsLink(s, inner, rest);
    }
  }

  // ----- tokens -----

  datatype Token = Lit(c: char) | Link(inner: string)

  function Scan(text: string): seq<Token>
    decreases |text|
  {
    if text == "" then []
    else if StartsLink(text) then
      LinkShape(text);
      [Link(LinkInner(text))] + Scan(text[|LinkInner(text)| + 4..])
    else [Lit(text[0])] + Scan(text[1..])
  }

  function Render(ts: seq<Token>): string {
    if ts == [] then ""
    else (match ts[0] case Lit(c) => [c] case Link(inner) => FormatWikilink(inner)) + Render(ts[1..])
  }

  lemma {:induction false} RenderOfScan(text: string)
    ensures Render(Scan(text)) == text
    decreases |text|
  {
    if text != "" {
      if StartsLink(text) {
        LinkShape(text);
        RenderOfScan(text[|LinkInner(text)| + 4..]);
      } else {
        RenderOfScan(text[1..]);
      }
    }
  }

  /** The trimmed targets that are not blank, in order. */
  function LinksOf(ts: seq<Token>): seq<string> {
    if ts == [] then []
    else if ts[0].Link? && Trim(ts[0].inner) != "" then [Trim(ts[0].inner)] + LinksOf(ts[1..])
    else LinksOf(ts[1..])
  }

  lemma LinksOfCons(t: Token, ts: seq<Token>)
    ensures LinksOf([t] + ts)
            == if t.Link? && Trim(t.inner) != "" then [Trim(t.inner)] + LinksOf(ts) else LinksOf(ts)
  {
    assert ([t] + ts)[1..] == ts;
  }

  /** The links of a text, by what stands at its start. */
  lemma LinksStep(text: string)
    requires text != ""
    ensures !StartsLink(text) ==> LinksOf(Scan(text)) == LinksOf(Scan(text[1..]))
    ensures StartsLink(text) ==>
              var inner := LinkInner(text);
              && |inner| + 4 <= |text|
              && LinksOf(Scan(text))
                 == if Trim(inner) == "" then LinksOf(Scan(text[|inner| + 4..]))
                    else [Trim(inner)] + LinksOf(Scan(text[|inner| + 4..]))
  {
    hide StartsLink, LinkInner, Trim;
    if StartsLink(text) {
      LinkShape(text);
      LinksOfCons(Link(LinkInner(text)), Scan(text[|LinkInner(text)| + 4..]));
    } else {
      LinksOfCons(Lit(text[0]), Scan(text[1..]));
    }
  }

  method ExtractWikilinks(text: string) returns (matches: seq<string>)
    ensures matches == LinksOf(Scan(text))
  {
    hide StartsLink, LinkInner, Trim, Scan;
    matches := [];
    var rest := text;
    while rest != ""
      invariant matches + LinksOf(Scan(rest)) == LinksOf(Scan(text))
      decreases |rest|
    {
      LinksStep(rest);
      if StartsLink(rest) {
        var inner := Trim(LinkInner(rest));
        if |inner| > 0 { matches := matches + [inner]; }
        rest := rest[|LinkInner(rest)| + 4..];
      } else {
        rest := rest[1..];
      }
    }
    assert LinksOf(Scan("")) == [] by { NothingToScan(); }
  }

  lemma NothingToScan()
    ensures LinksOf(Scan("")) == []
  {
  }

  // ----- rewriting -----

  type Mapping = map<string, string>

  /** The lookup gives a value the source treats as present. */
  predicate Maps(m: Mapping, key: string) {
    key in m && m[key] != ""
  }

  function Rewritten(inner: string, m: Mapping): string {
    if Maps(m, Trim(inner)) then m[Trim(inner)] else inner
  }

  function RewriteWikilinks(text: string, m: Mapping): string
    decreases |text|
  {
    if text == "" then ""
    else if StartsLink(text) then
      LinkShape(text);
      FormatWikilink(Rewritten(LinkInner(text), m)) + RewriteWikilinks(text[|LinkInner(text)| + 4..], m)
    else [text[0]] + RewriteWikilinks(text[1..], m)
  }

  function RewriteToken(t: Token, m: Mapping): Token {
    if t.Link? then Link(Rewritten(t.inner, m)) else t
  }

  function RewriteTokens(ts: seq<Token>, m: Mapping): seq<Token> {
    if ts == [] then [] else [RewriteToken(ts[0], m)] + RewriteTokens(ts[1..], m)
  }

  function MapLink(l: string, m: Mapping): string {
    if Maps(m, l) then m[l] else l
  }

  function MapLinks(ls: seq<string>, m: Mapping): seq<string> {
    if ls == [] then [] else [MapLink(ls[0], m)] + MapLinks(ls[1..], m)
  }

  /** A key that some link of a text can have. */
  predicate Usable(key: string) {
    key != "" && Trimmed(key) && ']' !in key
  }

  predicate Sound(m: Mapping) {
    forall k :: k in m && Usable(k) && m[k] != "" ==> Trimmed(m[k]) && ']' !in m[k]
  }

  /** A key that the trimmed inner text of a link can be. */
  predicate LookedUp(key: string) {
    key == "" || Usable(key)
  }

  /** No value that can be written into a link closes it early. */
  predicate Closed(m: Mapping) {
    forall k :: k in m && m[k] != "" && LookedUp(k) ==> ']' !in m[k]
  }

  /** What is written for a blank link holds no link. */
  predicate KeepsBlanks(m: Mapping) {
    Maps(m, "") ==> LinksOf(Scan(FormatWikilink(m[""]))) == []
  }

  lemma TrimOfInner(inner: string)
    requires ']' !in inner
    ensures Trim(inner) == "" || Usable(Trim(inner))
  {
    TrimIsTrimmed(inner);
    var head, tail := TrimSplit(inner);
    assert forall c :: c in Trim(inner) ==> c in inner;
  }

  lemma RewrittenIsInner(inner: string, m: Mapping)
    requires Closed(m) && inner != "" && ']' !in inner
    ensures Rewritten(inner, m) != "" && ']' !in Rewritten(inner, m)
  {
    TrimOfInner(inner);
  }

  lemma RunStep(c: char, s: string)
    requires c != ']'
    ensures Closes([c] + s) <==> Closes(s)
  {
    assert ([c] + s)[1..] == s;
    RunBound(s);
  }

  lemma ClosesOfBar(s: string)
    ensures Closes([']'] + s) <==> s != "" && s[0] == ']'
  {
  }

  lemma ClosesOfLink(inner: string, rest: string)
    requires ']' !in inner
    ensures Closes(FormatWikilink(inner) + rest)
  {
    var x := "[[" + inner;
    assert FormatWikilink(inner) + rest == x + ("]]" + rest);
    RunOf(x, "]]" + rest);
  }

  /** Rewriting links, whatever is written into them, makes no text before the next ']' close a link. */
  lemma {:induction false} ClosesNoMore(s: string, m: Mapping)
    ensures Closes(RewriteWikilinks(s, m)) ==> Closes(s)
    decreases |s|
  {
    hide Closes, Rewritten;
    if s != "" {
      if StartsLink(s) {
        LinkShape(s);
        ClosesOfLink(LinkInner(s), s[|LinkInner(s)| + 4..]);
      } else {
        assert s == [s[0]] + s[1..];
        var rest := RewriteWikilinks(s[1..], m);
        if s[0] == ']' {
          ClosesOfBar(s[1..]);
          ClosesOfBar(rest);
        } else {
          ClosesNoMore(s[1..], m);
          RunStep(s[0], s[1..]);
          RunStep(s[0], rest);
        }
      }
    }
  }

  /** No link can begin one character before another one does not. */
  lemma BracketBeforeLink(s: string)
    requires StartsLink(s)
    ensures StartsLink(['['] + s)
  {
    LinkShape(s);
    var inner := LinkInner(s);
    var t := ['['] + s;
    assert t == FormatWikilink("[" + inner) + s[|inner| + 4..];
    FormatStartsLink(t, "[" + inner, s[|inner| + 4..]);
  }

  /** Where no link began before rewriting, none begins after it. */
  lemma NoNewLink(s: string, m: Mapping)
    requires s != "" && !StartsLink(s)
    ensures !StartsLink([s[0]] + RewriteWikilinks(s[1..], m))
  {
    hide Closes;
    var rest := RewriteWikilinks(s[1..], m);
    if s[0] == '[' && |s| > 1 && s[1] == '[' {
      assert s == ['['] + s[1..];
      if StartsLink(s[1..]) { BracketBeforeLink(s[1..]); }
      assert s[1..][1..] == s[2..];
      var rest2 := RewriteWikilinks(s[2..], m);
      assert ([s[0]] + rest)[2..] == rest2;
      ClosesNoMore(s[2..], m);
    }
  }

  /** Scanning after rewriting is rewriting the tokens: every literal character stays where it
      was and every link stays a link. */
  lemma {:induction false} ScanOfRewrite(text: string, m: Mapping)
    requires Closed(m)
    ensures Scan(RewriteWikilinks(text, m)) == RewriteTokens(Scan(text), m)
    decreases |text|
  {
    hide StartsLink, LinkInner, Rewritten, Closed;
    if text != "" {
      if StartsLink(text) {
        LinkShape(text);
        var inner := LinkInner(text);
        var rest := text[|inner| + 4..];
        var target := Rewritten(inner, m);
        RewrittenIsInner(inner, m);
        ScanOfRewrite(rest, m);
        ScanOfLink(target, RewriteWikilinks(rest, m));
      } else {
        NoNewLink(text, m);
        ScanOfRewrite(text[1..], m);
        var out := RewriteWikilinks(text, m);
        assert out[1..] == RewriteWikilinks(text[1..], m);
      }
    }
  }

  lemma ScanOfLink(target: string, rest: string)
    requires target != "" && ']' !in target
    ensures Scan(FormatWikilink(target) + rest) == [Link(target)] + Scan(rest)
  {
    hide StartsLink, LinkInner;
    var s := FormatWikilink(target) + rest;
    FormatStartsLink(s, target, rest);
    assert s[|target| + 4..] == rest;
  }

  lemma {:induction false} TokensPointwise(ts: seq<Token>, m: Mapping)
    ensures |RewriteTokens(ts, m)| == |ts|
    ensures forall i :: 0 <= i < |ts| ==> RewriteTokens(ts, m)[i] == RewriteToken(ts[i], m)
  {
    if ts != [] { TokensPointwise(ts[1..], m); }
  }

  /** All text between links is unchanged, and links keep their places. */
  lemma TextBetweenLinksKept(text: string, m: Mapping)
    requires Closed(m)
    ensures var before, after := Scan(text), Scan(RewriteWikilinks(text, m));
            && |after| == |before|
            && (forall i :: 0 <= i < |before| && before[i].Lit? ==> after[i] == before[i])
            && (forall i :: 0 <= i < |before| && before[i].Link? ==> after[i] == Link(Rewritten(before[i].inner, m)))
  {
    ScanOfRewrite(text, m);
    TokensPointwise(Scan(text), m);
  }

  lemma {:induction false} ScanInners(text: string)
    ensures forall i :: 0 <= i < |Scan(text)| && Scan(text)[i].Link? ==>
              Scan(text)[i].inner != "" && ']' !in Scan(text)[i].inner
    decreases |text|
  {
    hide StartsLink, LinkInner;
    if text != "" {
      if StartsLink(text) {
        LinkShape(text);
        ScanInners(text[|LinkInner(text)| + 4..]);
      } else {
        ScanInners(text[1..]);
      }
    }
  }

  lemma TrimmedStays(s: string)
    requires Trimmed(s)
    ensures Trim(s) == s
  {
  }

  /** A link that begins in front of "]]" ends there at the latest. */
  lemma LinkInFront(s: string, rest: string)
    requires EndsWith(s, "]]")
    ensures StartsLink(s + rest) <==> StartsLink(s)
    ensures StartsLink(s) ==> LinkInner(s + rest) == LinkInner(s)
  {
    var x := s[..|s| - 2];
    assert s == x + "]]";
    if |x| >= 2 {
      assert (s + rest)[2..] == s[2..] + rest && s[2..] == x[2..] + "]]";
      RunInFront(x[2..], rest);
    }
  }

  lemma {:induction false} RunInFront(x: string, rest: string)
    ensures RunLength(x + "]]" + rest) == RunLength(x + "]]") <= |x|
    ensures Closes(x + "]]" + rest) <==> Closes(x + "]]")
  {
    if x != "" && x[0] != ']' {
      RunInFront(x[1..], rest);
      assert (x + "]]" + rest)[1..] == x[1..] + "]]" + rest && (x + "]]")[1..] == x[1..] + "]]";
    }
  }

  /** What is left of a text that ends in "]]" when a link or a character is taken off its front. */
  predicate EndsLinks(s: string) {
    s == "" || s == "]" || EndsWith(s, "]]")
  }

  lemma TailEndsLinks(s: string, n: nat)
    requires EndsLinks(s) && n <= |s|
    ensures EndsLinks(s[n..])
  {
    if n + 2 <= |s| { assert s[n..][|s[n..]| - 2..] == s[|s| - 2..]; }
  }

  function FirstToken(text: string): Token
    requires text != ""
  {
    if StartsLink(text) then Link(LinkInner(text)) else Lit(text[0])
  }

  function FirstLength(text: string): (n: nat)
    requires text != ""
    ensures 1 <= n <= |text|
  {
    if StartsLink(text) then
      LinkShape(text);
      |LinkInner(text)| + 4
    else 1
  }

  lemma ScanOfFirst(text: string)
    requires text != ""
    ensures Scan(text) == [FirstToken(text)] + Scan(text[FirstLength(text)..])
  {
    hide StartsLink, LinkInner;
  }

  lemma FirstStays(s: string, rest: string)
    requires EndsLinks(s) && s != ""
    ensures FirstToken(s + rest) == FirstToken(s) && FirstLength(s + rest) == FirstLength(s)
  {
    if s != "]" { LinkInFront(s, rest); }
    hide StartsLink, LinkInner;
    assert (s + rest)[0] == s[0];
    assert s == "]" ==> !StartsLink(s) && !StartsLink(s + rest) by { NoLinkAtBar(s, rest); }
  }

  lemma NoLinkAtBar(s: string, rest: string)
    ensures s == "]" ==> !StartsLink(s) && !StartsLink(s + rest)
  {
  }

  /** No link reaches across the end of another one. */
  lemma {:induction false} ScanConcat(s: string, rest: string)
    requires EndsLinks(s)
    ensures Scan(s + rest) == Scan(s) + Scan(rest)
    decreases |s|
  {
    hide *;
    if s == "" {
      NoTokens();
      assert s + rest == rest;
    } else {
      var n := FirstLength(s);
      FirstStays(s, rest);
      ScanOfFirst(s);
      ScanOfFirst(s + rest);
      assert (s + rest)[n..] == s[n..] + rest;
      TailEndsLinks(s, n);
      ScanConcat(s[n..], rest);
    }
  }

  lemma NoTokens()
    ensures Scan("") == []
  {
  }

  lemma {:induction false} LinksOfConcat(a: seq<Token>, b: seq<Token>)
    ensures LinksOf(a + b) == LinksOf(a) + LinksOf(b)
  {
    hide Trim;
    if a == [] {
      assert a + b == b;
    } else {
      assert (a + b)[1..] == a[1..] + b;
      LinksOfConcat(a[1..], b);
    }
  }

  /** Whatever stands in double brackets is scanned on its own. */
  lemma LinksOfFormatted(target: string, rest: string)
    ensures LinksOf(Scan(FormatWikilink(target) + rest)) == LinksOf(Scan(FormatWikilink(target))) + LinksOf(Scan(rest))
  {
    assert EndsLinks(FormatWikilink(target));
    hide Scan, LinksOf, FormatWikilink, EndsLinks;
    ScanConcat(FormatWikilink(target), rest);
    LinksOfConcat(Scan(FormatWikilink(target)), Scan(rest));
  }

  /** A rewritten link gives the value of its target, or nothing if it was blank. */
  lemma LinksOfOne(inner: string, m: Mapping)
    requires Sound(m) && KeepsBlanks(m) && inner != "" && ']' !in inner
    ensures LinksOf(Scan(FormatWikilink(Rewritten(inner, m))))
            == if Trim(inner) == "" then [] else [MapLink(Trim(inner), m)]
  {
    var l, target := Trim(inner), Rewritten(inner, m);
    TrimOfInner(inner);
    if l != "" || !Maps(m, l) {
      if Maps(m, l) { TrimmedStays(m[l]); }
      hide Trim, Scan, Sound, KeepsBlanks;
      SingleLink(target);
      assert LinksOf([Link(target)][1..]) == [];
    }
  }

  /** Extracting links after rewriting is mapping the extracted links. */
  lemma {:induction false} ExtractOfRewrite(text: string, m: Mapping)
    requires Sound(m) && KeepsBlanks(m)
    ensures LinksOf(Scan(RewriteWikilinks(text, m))) == MapLinks(LinksOf(Scan(text)), m)
    decreases |text|
  {
    hide StartsLink, LinkInner, Rewritten, Sound, KeepsBlanks, Scan, LinksOf, Trim, MapLink;
    if text == "" {
      NothingToScan();
    } else {
      LinksStep(text);
      var out := RewriteWikilinks(text, m);
      if StartsLink(text) {
        LinkShape(text);
        var inner := LinkInner(text);
        var rest := text[|inner| + 4..];
        ExtractOfRewrite(rest, m);
        LinksOfFormatted(Rewritten(inner, m), RewriteWikilinks(rest, m));
        LinksOfOne(inner, m);
        if Trim(inner) != "" { assert ([Trim(inner)] + LinksOf(Scan(rest)))[1..] == LinksOf(Scan(rest)); }
      } else {
        NoNewLink(text, m);
        ExtractOfRewrite(text[1..], m);
        LinksStep(out);
        assert out[1..] == RewriteWikilinks(text[1..], m);
      }
    }
  }

  lemma SingleLink(target: string)
    requires target != "" && ']' !in target
    ensures Scan(FormatWikilink(target)) == [Link(target)]
  {
    ScanOfLink(target, "");
    assert FormatWikilink(target) + "" == FormatWikilink(target);
  }

  lemma {:induction false} LinksAreUsable(ts: seq<Token>)
    requires forall i :: 0 <= i < |ts| && ts[i].Link? ==> ']' !in ts[i].inner
    ensures forall l :: l in LinksOf(ts) ==> Usable(l)
  {
    hide Trim;
    if ts != [] {
      LinksAreUsable(ts[1..]);
      if ts[0].Link? { TrimOfInner(ts[0].inner); }
    }
  }

  /** A mapping rewrites every text as a map on its links exactly when each value of a key that a
      link can have is trimmed and free of ']', and what is written for a blank link holds no link. */
  lemma ExtractOfRewriteIff(m: Mapping)
    ensures (forall text :: LinksOf(Scan(RewriteWikilinks(text, m))) == MapLinks(LinksOf(Scan(text)), m))
            <==> Sound(m) && KeepsBlanks(m)
  {
    hide Scan, RewriteWikilinks, LinksOf, MapLinks;
    if Sound(m) && KeepsBlanks(m) {
      forall text ensures LinksOf(Scan(RewriteWikilinks(text, m))) == MapLinks(LinksOf(Scan(text)), m) {
        ExtractOfRewrite(text, m);
      }
    } else if !Sound(m) {
      var k :| k in m && Usable(k) && m[k] != "" && !(Trimmed(m[k]) && ']' !in m[k]);
      UnsoundKey(k, m);
    } else {
      BlankKeyAddsLink(m);
      NoLinks(m);
    }
  }

  lemma NoLinks(m: Mapping)
    ensures MapLinks([], m) == []
  {
  }

  lemma UnsoundKey(k: string, m: Mapping)
    requires k in m && Usable(k) && m[k] != "" && !(Trimmed(m[k]) && ']' !in m[k])
    ensures var text := FormatWikilink(k);
            LinksOf(Scan(RewriteWikilinks(text, m))) != MapLinks(LinksOf(Scan(text)), m)
  {
    hide StartsLink, RewriteWikilinks;
    var text := FormatWikilink(k);
    SingleLink(k);
    TrimmedStays(k);
    assert LinksOf([Link(k)][1..]) == [];
    assert LinksOf(Scan(text)) == [k];
    assert MapLinks([k][1..], m) == [];
    assert MapLinks([k], m) == [m[k]];
    var after := LinksOf(Scan(RewriteWikilinks(text, m)));
    ScanInners(RewriteWikilinks(text, m));
    LinksAreUsable(Scan(RewriteWikilinks(text, m)));
    assert after != [] ==> Usable(after[0]);
  }

  /** A blank key turns a blank link into whatever links its value makes; into that value alone, if it is not
      blank and free of ']'. */
  lemma BlankKeyAddsLink(m: Mapping)
    requires Maps(m, "")
    ensures LinksOf(Scan("[[ ]]")) == []
    ensures LinksOf(Scan(RewriteWikilinks("[[ ]]", m))) == LinksOf(Scan(FormatWikilink(m[""])))
    ensures ']' !in m[""] && Trim(m[""]) != "" ==> LinksOf(Scan(RewriteWikilinks("[[ ]]", m))) == [Trim(m[""])]
  {
    var target := m[""];
    hide Scan;
    SingleLink(" ");
    assert "[[ ]]" == FormatWikilink(" ");
    assert Trim(" ") == "" by { assert TrimStart(" ") == TrimStart(""); }
    BlankIsRewritten(m);
    hide Trim, RewriteWikilinks;
    if ']' !in target { SingleLink(target); }
    assert LinksOf([Link(target)][1..]) == [] && LinksOf([Link(" ")][1..]) == [];
  }

  lemma BlankIsRewritten(m: Mapping)
    requires Maps(m, "")
    ensures RewriteWikilinks("[[ ]]", m) == FormatWikilink(m[""])
  {
    FormatStartsLink("[[ ]]", " ", "");
    assert TrimStart(" ") == TrimStart("");
    assert RewriteWikilinks("", m) == "";
    assert FormatWikilink(m[""]) + "" == FormatWikilink(m[""]);
  }

  // ----- composition -----

  function Compose(m1: Mapping, m2: Mapping): Mapping {
    map k | k in m1.Keys + m2.Keys ::
      if Maps(m1, k) then Rewritten(m1[k], m2) else if k in m2 then m2[k] else ""
  }

  lemma {:induction false} RewriteTwice(ts: seq<Token>, m1: Mapping, m2: Mapping)
    ensures Render(RewriteTokens(RewriteTokens(ts, m1), m2)) == Render(RewriteTokens(ts, Compose(m1, m2)))
  {
    hide Trim;
    if ts != [] {
      RewriteTwice(ts[1..], m1, m2);
    }
  }

  lemma {:induction false} RewriteIsRender(text: string, m: Mapping)
    ensures RewriteWikilinks(text, m) == Render(RewriteTokens(Scan(text), m))
    decreases |text|
  {
    hide StartsLink, LinkInner;
    if text != "" {
      if StartsLink(text) {
        LinkShape(text);
        RewriteIsRender(text[|LinkInner(text)| + 4..], m);
      } else {
        RewriteIsRender(text[1..], m);
      }
    }
  }

  /** Rewriting by m1 and then by m2 is one rewrite by their composition. */
  lemma RewriteComposes(text: string, m1: Mapping, m2: Mapping)
    requires Closed(m1)
    ensures RewriteWikilinks(RewriteWikilinks(text, m1), m2) == RewriteWikilinks(text, Compose(m1, m2))
  {
    hide Closed, Scan, RewriteTokens, RewriteWikilinks, Render, Compose;
    RewriteIsRender(RewriteWikilinks(text, m1), m2);
    ScanOfRewrite(text, m1);
    RewriteTwice(Scan(text), m1, m2);
    RewriteIsRender(text, Compose(m1, m2));
  }

  lemma {:induction false} NothingRewritten(ts: seq<Token>, m: Mapping)
    requires forall i :: 0 <= i < |ts| && ts[i].Link? ==> !Maps(m, Trim(ts[i].inner))
    ensures RewriteTokens(ts, m) == ts
  {
    hide Trim;
    if ts != [] { NothingRewritten(ts[1..], m); }
  }

  /** A key that no link can have rewrites nothing. */
  lemma UselessKey(text: string, m: Mapping)
    requires forall k :: k in m ==> !LookedUp(k)
    ensures RewriteWikilinks(text, m) == text
  {
    var ts := Scan(text);
    ScanInners(text);
    forall i | 0 <= i < |ts| && ts[i].Link? ensures !Maps(m, Trim(ts[i].inner)) {
      TrimOfInner(ts[i].inner);
    }
    hide Scan, Trim;
    RewriteIsRender(text, m);
    NothingRewritten(ts, m);
    RenderOfScan(text);
  }

  /** The text on which a value that closes its link early tells the two ways apart: the second mapping has a key
      for the whole value, but after the first rewrite no link has that value. */
  lemma ClosingValueTellsApart(k: string, m1: Mapping)
    requires k in m1 && m1[k] != "" && LookedUp(k) && ']' in m1[k]
    ensures var text, m2 := FormatWikilink(if k == "" then " " else k), map[Trim(m1[k]) := m1[k] + "x"];
            RewriteWikilinks(RewriteWikilinks(text, m1), m2) != RewriteWikilinks(text, Compose(m1, m2))
  {
    var v, inner := m1[k], if k == "" then " " else k;
    var m2: Mapping := map[Trim(v) := v + "x"];
    BarStays(v);
    TargetOf(k);
    ComposedValue(k, m1, v + "x");
    assert Rewritten(inner, m1) == v && Rewritten(inner, Compose(m1, m2)) == v + "x";
    assert |FormatWikilink(v + "x")| == |FormatWikilink(v)| + 1;
    hide Trim, StartsLink, FormatWikilink, RewriteWikilinks, Compose, Rewritten;
    OneRewrite(inner, m1);
    OneRewrite(inner, Compose(m1, m2));
    UselessKey(FormatWikilink(v), m2);
  }

  /** A text that has the key as its one link. */
  lemma TargetOf(k: string)
    requires LookedUp(k)
    ensures var inner := if k == "" then " " else k; Trim(inner) == k && inner != "" && ']' !in inner
  {
    assert TrimStart(" ") == TrimStart("");
    if k != "" { TrimmedStays(k); }
  }

  lemma ComposedValue(k: string, m1: Mapping, w: string)
    requires Maps(m1, k) && w != ""
    ensures var all := Compose(m1, map[Trim(m1[k]) := w]); k in all && all[k] == w
  {
    hide Trim;
  }

  lemma BarStays(v: string)
    requires ']' in v
    ensures ']' in Trim(v) && !LookedUp(Trim(v))
  {
    var head, tail := TrimSplit(v);
    hide Trim;
    assert ']' !in head && ']' !in tail;
  }

  lemma OneRewrite(inner: string, m: Mapping)
    requires inner != "" && ']' !in inner
    ensures RewriteWikilinks(FormatWikilink(inner), m) == FormatWikilink(Rewritten(inner, m))
  {
    var text := FormatWikilink(inner);
    assert text + "" == text;
    FormatStartsLink(text, inner, "");
    hide StartsLink, LinkInner, Rewritten;
    assert text[|inner| + 4..] == "" && RewriteWikilinks("", m) == "";
    assert FormatWikilink(Rewritten(inner, m)) + "" == FormatWikilink(Rewritten(inner, m));
  }

  /** Rewriting by a mapping and then by any other one is always one rewrite by their composition exactly when no
      value that can be written into a link holds a ']'. */
  lemma RewriteComposesIff(m1: Mapping)
    ensures (forall text, m2 ::
               RewriteWikilinks(RewriteWikilinks(text, m1), m2) == RewriteWikilinks(text, Compose(m1, m2)))
            <==> Closed(m1)
  {
    if Closed(m1) {
      forall text, m2
        ensures RewriteWikilinks(RewriteWikilinks(text, m1), m2) == RewriteWikilinks(text, Compose(m1, m2))
      {
        RewriteComposes(text, m1, m2);
      }
    } else {
      var k :| k in m1 && m1[k] != "" && LookedUp(k) && ']' in m1[k];
      ClosingValueTellsApart(k, m1);
    }
  }
}
