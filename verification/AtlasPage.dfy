/** An atlas page: rendered from a node, and read back by its sections. */
module AtlasPage {
  import opened Wrappers
  import opened Str
  import opened JsMaps
  import opened Frontmatter

  // ----- source pointers and their links -----

  const POINTER_KINDS := ["lifecycle", "thoughts", "pm", "mindmodel", "code"]
  const CODE_KIND := "code"
  const DEFAULT_REF := "main"

  datatype SourcePointer = SourcePointer(kind: string, value: string)

  function TryParsePointer(raw: string): Option<SourcePointer> {
    var colon := IndexOf(raw, ":", 0);
    if colon == None then None
    else if raw[..colon.value] !in POINTER_KINDS then None
    else Some(SourcePointer(raw[..colon.value], raw[colon.value + 1..]))
  }

  function StripTrailingSlash(raw: string): string {
    if raw != "" && raw[|raw| - 1] == '/' then StripTrailingSlash(raw[..|raw| - 1]) else raw
  }

  /** A code pointer becomes a link to the repository; anything else stays as it is. */
  function FormatSourceLink(raw: string, repoBase: string): string {
    var pointer := TryParsePointer(raw);
    if pointer == None || pointer.value.kind != CODE_KIND then raw
    else
      "[查看源码 " + pointer.value.value + "](" + StripTrailingSlash(repoBase) + "/blob/" + DEFAULT_REF + "/"
      + pointer.value.value + ")"
  }

  // ----- the extra head fields -----

  /** #L and digits, perhaps a dash, another L and digits, at the very end. */
  predicate IsLineAnchor(s: string) {
    StartsWith(s, "#L") &&
    (var rest := s[2..];
     var n := LeadingDigits(rest);
     n > 0 && (n == |rest| ||
               (rest[n] == '-' &&
                (var tail := rest[n + 1..];
                 AllDigits(if StartsWith(tail, "L") then tail[1..] else tail)))))
  }

  function StripLineAnchor(path: string): string {
    if path == "" || IsLineAnchor(path) then "" else [path[0]] + StripLineAnchor(path[1..])
  }

  function FirstCodeSourcePath(sources: seq<string>): Option<string> {
    if sources == [] then None
    else
      var pointer := TryParsePointer(sources[0]);
      if pointer.Some? && pointer.value.kind == CODE_KIND then Some(StripLineAnchor(pointer.value.value))
      else FirstCodeSourcePath(sources[1..])
  }

  datatype EmptyNodeInput = EmptyNodeInput(
    id: string, layer: AtlasLayer, status: AtlasNodeStatus, title: string, summary: string, sources: seq<string>,
    lastVerifiedCommit: string, lastWrittenMtime: Option<int>, connections: seq<string>, repoBase: string)

  const NO_EXTRAS: JsMap<string, string> := JsMap([], map[])

  function BuildExtras(input: EmptyNodeInput): JsMap<string, string> {
    var title := Trim(input.title);
    var withTitle := if title != "" then NO_EXTRAS.Put("title", title) else NO_EXTRAS;
    var withAliases := if input.id != "" && input.id != title then withTitle.Put("aliases", input.id) else withTitle;
    var path := FirstCodeSourcePath(input.sources);
    if path == None then withAliases else withAliases.Put("source_path", path.value)
  }

  lemma ExtrasAreValid(input: EmptyNodeInput)
    ensures BuildExtras(input).Valid()
    ensures forall k :: k in BuildExtras(input).vals ==> k == "title" || k == "aliases" || k == "source_path"
  {
    var title := Trim(input.title);
    var withTitle := if title != "" then NO_EXTRAS.Put("title", title) else NO_EXTRAS;
    PutValid(NO_EXTRAS, "title", title);
    PutValid(withTitle, "aliases", input.id);
    var withAliases := if input.id != "" && input.id != title then withTitle.Put("aliases", input.id) else withTitle;
    var path := FirstCodeSourcePath(input.sources);
    if path.Some? { PutValid(withAliases, "source_path", path.value); }
    hide Trim, FirstCodeSourcePath, JsMap.Valid;
  }

  function FrontmatterFor(input: EmptyNodeInput): AtlasFrontmatter {
    AtlasFrontmatter(input.id, input.layer, input.status, input.lastVerifiedCommit, input.lastWrittenMtime,
                     input.sources, BuildExtras(input))
  }

  // ----- pointers, links and extras, told from their texts -----

  /** A pointer is one of five kinds, a colon, and any value. */
  lemma PointerIff(raw: string, p: SourcePointer)
    ensures TryParsePointer(raw) == Some(p) <==>
              raw == p.kind + ":" + p.value
              && (p.kind == "lifecycle" || p.kind == "thoughts" || p.kind == "pm" || p.kind == "mindmodel"
                  || p.kind == "code")
  {
    KindIff(p.kind);
    if TryParsePointer(raw) == Some(p) { PointerHasColon(raw, p); }
    if raw == p.kind + ":" + p.value && p.kind in POINTER_KINDS { ColonMakesPointer(raw, p); }
  }

  lemma KindIff(kind: string)
    ensures kind in POINTER_KINDS <==>
              kind == "lifecycle" || kind == "thoughts" || kind == "pm" || kind == "mindmodel" || kind == "code"
  {
  }

  lemma PointerHasColon(raw: string, p: SourcePointer)
    requires TryParsePointer(raw) == Some(p)
    ensures raw == p.kind + ":" + p.value && p.kind in POINTER_KINDS
  {
    var colon := IndexOf(raw, ":", 0);
    if colon.Some? { assert raw[colon.value + 0] == ":"[0]; }
    hide IndexOf, OccursAt;
    assert colon.Some? ==> raw == raw[..colon.value] + ":" + raw[colon.value + 1..];
  }

  lemma ColonMakesPointer(raw: string, p: SourcePointer)
    requires raw == p.kind + ":" + p.value && p.kind in POINTER_KINDS
    ensures TryParsePointer(raw) == Some(p)
  {
    KindHasNoColon(p.kind);
    assert raw[|p.kind|] == ':';
    assert OccursAt(raw, ":", |p.kind|);
    forall k | 0 <= k < |p.kind| ensures !OccursAt(raw, ":", k) {
      assert raw[k] == p.kind[k] && p.kind[k] in p.kind && raw[k + 0] != ":"[0];
    }
    IndexOfIs(raw, ":", 0, Some(|p.kind|));
    hide IndexOf, OccursAt;
    assert raw[..|p.kind|] == p.kind && raw[|p.kind| + 1..] == p.value;
  }

  lemma KindHasNoColon(kind: string)
    requires kind in POINTER_KINDS
    ensures ':' !in kind
  {
  }

  /** All slashes at the end are taken off, and nothing else. */
  lemma {:induction false} SlashesStripped(raw: string)
    ensures StripTrailingSlash(raw) <= raw
    ensures forall i :: |StripTrailingSlash(raw)| <= i < |raw| ==> raw[i] == '/'
    ensures StripTrailingSlash(raw) != "" ==> StripTrailingSlash(raw)[|StripTrailingSlash(raw)| - 1] != '/'
  {
    if raw != "" && raw[|raw| - 1] == '/' { SlashesStripped(raw[..|raw| - 1]); }
  }

  /** A code pointer links to its value in the repository; any other text stays as it is. */
  lemma LinkReads(raw: string, repoBase: string, value: string)
    ensures raw == "code:" + value ==>
              FormatSourceLink(raw, repoBase)
              == "[查看源码 " + value + "](" + StripTrailingSlash(repoBase) + "/blob/main/" + value + ")"
    ensures !StartsWith(raw, "code:") ==> FormatSourceLink(raw, repoBase) == raw
  {
    PointerIff(raw, SourcePointer("code", value));
    assert "code" + ":" == "code:";
    var pointer := TryParsePointer(raw);
    if pointer.Some? {
      PointerIff(raw, pointer.value);
      if pointer.value.kind == "code" { assert raw[..5] == "code:"; }
    }
    hide TryParsePointer, StripTrailingSlash;
    assert "/blob/" + DEFAULT_REF + "/" == "/blob/main/";
    if raw == "code:" + value {
      var base := StripTrailingSlash(repoBase);
      assert "[查看源码 " + value + "](" + base + "/blob/" + DEFAULT_REF + "/" + value + ")"
             == "[查看源码 " + value + "](" + base + "/blob/main/" + value + ")";
    }
  }

  /** The path of a source page is that of the first code pointer, without a line anchor. */
  lemma {:induction false} FirstCodeIff(sources: seq<string>)
    ensures FirstCodeSourcePath(sources).Some? <==> exists i :: 0 <= i < |sources| && StartsWith(sources[i], "code:")
    ensures forall i :: 0 <= i < |sources| && StartsWith(sources[i], "code:")
                        && (forall j :: 0 <= j < i ==> !StartsWith(sources[j], "code:")) ==>
              FirstCodeSourcePath(sources) == Some(StripLineAnchor(sources[i][5..]))
  {
    hide StripLineAnchor;
    if sources != [] {
      var rest := sources[1..];
      FirstCodeIff(rest);
      CodePointer(sources[0]);
      assert forall i :: 0 < i < |sources| ==> sources[i] == rest[i - 1];
      assert forall i :: 0 <= i < |rest| ==> rest[i] == sources[i + 1];
      hide TryParsePointer, StartsWith;
    }
  }

  lemma CodePointer(raw: string)
    ensures var pointer := TryParsePointer(raw);
            && (StartsWith(raw, "code:") ==> pointer == Some(SourcePointer("code", raw[5..])))
            && (pointer.Some? && pointer.value.kind == CODE_KIND ==> StartsWith(raw, "code:"))
  {
    assert "code" + ":" == "code:";
    if StartsWith(raw, "code:") {
      assert raw == "code:" + raw[5..];
      PointerIff(raw, SourcePointer("code", raw[5..]));
    }
    var pointer := TryParsePointer(raw);
    if pointer.Some? {
      PointerIff(raw, pointer.value);
      if pointer.value.kind == CODE_KIND { assert raw[..5] == "code:"; }
    }
  }

  predicate AnchorText(s: string, a: string, b: string) {
    AllDigits(a) && (s == "#L" + a || (AllDigits(b) && (s == "#L" + a + "-" + b || s == "#L" + a + "-L" + b)))
  }

  /** A line anchor is #L and digits, perhaps followed by a dash, perhaps an L, and digits. */
  lemma AnchorIff(s: string)
    ensures IsLineAnchor(s) <==> exists a: string, b: string :: AnchorText(s, a, b)
  {
    hide IsLineAnchor, AnchorText;
    if IsLineAnchor(s) { var a, b := AnchorHasDigits(s); }
    if a: string, b: string :| AnchorText(s, a, b) { DigitsMakeAnchor(s, a, b); }
  }

  lemma {:induction false} LeadingAreDigits(s: string)
    ensures forall i :: 0 <= i < LeadingDigits(s) ==> IsDigit(s[i])
    ensures LeadingDigits(s) < |s| ==> !IsDigit(s[LeadingDigits(s)])
  {
    if s != "" && IsDigit(s[0]) { LeadingAreDigits(s[1..]); }
  }

  /** The anchor, taken apart as the predicate reads it. */
  lemma AnchorParts(s: string) returns (rest: string, n: nat, b: string)
    requires IsLineAnchor(s)
    ensures s == "#L" + rest && 0 < n <= |rest| && n == LeadingDigits(rest)
    ensures n < |rest| ==>
              var tail := rest[n + 1..];
              rest[n] == '-' && AllDigits(b) && b == if StartsWith(tail, "L") then tail[1..] else tail
  {
    rest := s[2..];
    n := LeadingDigits(rest);
    hide LeadingDigits, AllDigits;
    b := if n == |rest| then "" else if StartsWith(rest[n + 1..], "L") then rest[n + 1..][1..] else rest[n + 1..];
    assert s[..2] == "#L";
  }

  lemma AnchorHasDigits(s: string) returns (a: string, b: string)
    requires IsLineAnchor(s)
    ensures AnchorText(s, a, b)
  {
    hide *;
    var rest, n, last := AnchorParts(s);
    LeadingSlice(rest, n);
    a, b := rest[..n], last;
    if n < |rest| {
      CutAt(rest, n);
      TailShape(s, a, rest[n + 1..], b);
    } else {
      assert rest[..n] == rest;
      NoTail(s, a, b);
    }
  }

  lemma LeadingSlice(rest: string, n: nat)
    requires 0 < n == LeadingDigits(rest) <= |rest|
    ensures AllDigits(rest[..n])
  {
    LeadingAreDigits(rest);
    hide LeadingDigits, IsDigit;
  }

  lemma CutAt(s: string, n: nat)
    requires n < |s| && s[n] == '-'
    ensures s == s[..n] + ("-" + s[n + 1..])
  {
  }

  lemma NoTail(s: string, a: string, b: string)
    requires s == "#L" + a && AllDigits(a)
    ensures AnchorText(s, a, b)
  {
  }

  lemma TailShape(s: string, a: string, tail: string, b: string)
    requires s == "#L" + (a + ("-" + tail)) && b == if StartsWith(tail, "L") then tail[1..] else tail
    requires AllDigits(a) && AllDigits(b)
    ensures AnchorText(s, a, b)
  {
    hide AllDigits;
    if StartsWith(tail, "L") {
      assert tail == "L" + b;
      assert "-" + ("L" + b) == "-L" + b;
    }
  }

  lemma DigitsMakeAnchor(s: string, a: string, b: string)
    requires AnchorText(s, a, b)
    ensures IsLineAnchor(s)
  {
    var rest := s[2..];
    assert s[..2] == "#L";
    if s == "#L" + a {
      assert rest == a && a + "" == a;
      LeadingIs(a, "");
    } else {
      var tail := if s == "#L" + a + "-" + b then b else "L" + b;
      assert rest == a + ("-" + tail);
      LeadingIs(a, "-" + tail);
      assert rest[|a| + 1..] == tail;
      assert tail == b ==> !StartsWith(tail, "L") by { assert IsDigit(b[0]); }
      assert tail != b ==> tail[1..] == b;
    }
    hide LeadingDigits;
  }

  /** The anchor is taken off at the first place where the rest of the path is one. */
  lemma {:induction false} AnchorStripped(path: string)
    ensures StripLineAnchor(path) <= path
    ensures StripLineAnchor(path) == path || IsLineAnchor(path[|StripLineAnchor(path)|..])
    ensures forall i :: 0 <= i < |StripLineAnchor(path)| ==> !IsLineAnchor(path[i..])
  {
    hide IsLineAnchor;
    assert path[0..] == path;
    if path != "" && !IsLineAnchor(path) {
      AnchorStripped(path[1..]);
      var rest := StripLineAnchor(path[1..]);
      assert path[1..][|rest|..] == path[|rest| + 1..];
      forall i | 0 < i < |StripLineAnchor(path)| ensures !IsLineAnchor(path[i..]) {
        assert path[i..] == path[1..][i - 1..];
      }
    }
  }

  /** The extra fields: the trimmed title if there is one, the id if it says something else, and the path of the
      source. */
  lemma ExtrasRead(input: EmptyNodeInput)
    ensures var extras, title, path := BuildExtras(input).vals, Trim(input.title), FirstCodeSourcePath(input.sources);
            && (if title != "" then "title" in extras && extras["title"] == title else "title" !in extras)
            && (if input.id != "" && input.id != title then "aliases" in extras && extras["aliases"] == input.id
                else "aliases" !in extras)
            && (if path.Some? then "source_path" in extras && extras["source_path"] == path.value
                else "source_path" !in extras)
  {
    hide Trim, FirstCodeSourcePath;
    assert |"title"| == 5 && |"aliases"| == 7 && |"source_path"| == 11;
  }

  // ----- the sections -----

  datatype Section = Summary | Connections | Sources | Notes

  const NONE_TEXT := "_none_"

  function SectionName(s: Section): string {
    match s
    case Summary => "Summary"
    case Connections => "Connections"
    case Sources => "Sources"
    case Notes => "Notes"
  }

  function HeadingLine(s: Section): string {
    "## " + SectionName(s)
  }

  function RenderH2(s: Section, body: string): string {
    HeadingLine(s) + "\n\n" + body + "\n"
  }

  function BulletLine(item: string): string {
    "- " + item
  }

  function Bullets(items: seq<string>): string {
    if items == [] then NONE_TEXT else Join(Map(BulletLine, items), "\n")
  }

  function Links(input: EmptyNodeInput): seq<string> {
    Map(s => FormatSourceLink(s, input.repoBase), input.sources)
  }

  function RenderBody(input: EmptyNodeInput): string {
    var heading := if input.title != "" then "# " + input.title + "\n\n" else "";
    Join([heading + RenderH2(Summary, input.summary), RenderH2(Connections, Bullets(input.connections)),
          RenderH2(Sources, Bullets(Links(input))), RenderH2(Notes, NONE_TEXT)], "\n")
  }

  function RenderEmptyNode(input: EmptyNodeInput): string {
    ExtrasAreValid(input);
    Written(FrontmatterFor(input), RenderBody(input))
  }

  // ----- reading -----

  function SectionOf(line: string): Option<Section> {
    if line == HeadingLine(Summary) then Some(Summary)
    else if line == HeadingLine(Connections) then Some(Connections)
    else if line == HeadingLine(Sources) then Some(Sources)
    else if line == HeadingLine(Notes) then Some(Notes)
    else None
  }

  /** Exactly these four lines begin a section. */
  lemma HeadingIff(line: string)
    ensures SectionOf(line) == Some(Summary) <==> line == "## Summary"
    ensures SectionOf(line) == Some(Connections) <==> line == "## Connections"
    ensures SectionOf(line) == Some(Sources) <==> line == "## Sources"
    ensures SectionOf(line) == Some(Notes) <==> line == "## Notes"
  {
    assert HeadingLine(Summary) == "## Summary" && HeadingLine(Connections) == "## Connections";
    assert HeadingLine(Sources) == "## Sources" && HeadingLine(Notes) == "## Notes";
    assert "## Summary"[3] == 'S' && "## Summary"[4] == 'u' && "## Connections"[3] == 'C';
    assert "## Sources"[3] == 'S' && "## Sources"[4] == 'o' && "## Notes"[3] == 'N';
  }

  /** The section that a line after these belongs to. */
  function Current(lines: seq<string>): Option<Section> {
    if lines == [] then None
    else if SectionOf(lines[|lines| - 1]).Some? then SectionOf(lines[|lines| - 1])
    else Current(lines[..|lines| - 1])
  }

  function SectionLines(lines: seq<string>, s: Section): seq<string> {
    if lines == [] then []
    else
      var before, last := lines[..|lines| - 1], lines[|lines| - 1];
      SectionLines(before, s) + if SectionOf(last) == None && Current(before) == Some(s) then [last] else []
  }

  function SectionText(body: string, s: Section): string {
    Trim(Join(SectionLines(Split(body, '\n'), s), "\n"))
  }

  datatype Texts = Texts(summary: string, connections: string, sources: string, notes: string)

  method SplitSections(body: string) returns (texts: Texts)
    ensures texts == Texts(SectionText(body, Summary), SectionText(body, Connections),
                           SectionText(body, Sources), SectionText(body, Notes))
  {
    hide SectionOf, Trim, Split, Join;
    var summary: seq<string>, connections: seq<string>, sources: seq<string>, notes: seq<string> := [], [], [], [];
    var current: Option<Section> := None;
    var lines := Split(body, '\n');
    for i := 0 to |lines|
      invariant current == Current(lines[..i])
      invariant summary == SectionLines(lines[..i], Summary) && connections == SectionLines(lines[..i], Connections)
      invariant sources == SectionLines(lines[..i], Sources) && notes == SectionLines(lines[..i], Notes)
    {
      assert lines[..i + 1][..i] == lines[..i];
      var found := SectionOf(lines[i]);
      if found.Some? {
        current := found;
        continue;
      }
      if current.Some? {
        match current.value
        case Summary => summary := summary + [lines[i]];
        case Connections => connections := connections + [lines[i]];
        case Sources => sources := sources + [lines[i]];
        case Notes => notes := notes + [lines[i]];
      }
    }
    assert lines[..|lines|] == lines;
    texts := Texts(Trim(Join(summary, "\n")), Trim(Join(connections, "\n")),
                   Trim(Join(sources, "\n")), Trim(Join(notes, "\n")));
  }

  function BulletsIn(lines: seq<string>): seq<string> {
    if lines == [] then []
    else if StartsWith(Trim(lines[0]), "- ") then [Trim(Trim(lines[0])[2..])] + BulletsIn(lines[1..])
    else BulletsIn(lines[1..])
  }

  function CollectBullets(raw: string): seq<string> {
    if raw == "" || raw == NONE_TEXT then [] else BulletsIn(Split(raw, '\n'))
  }

  datatype AtlasNode = AtlasNode(
    frontmatter: AtlasFrontmatter, summary: string, connections: seq<string>, sourcesBody: seq<string>, notes: string)

  function NodeOf(raw: string): Result<AtlasNode> {
    var parsed := Parsed(raw);
    if parsed.Err? then Err(parsed.error)
    else
      var (fm, body) := parsed.value;
      Ok(AtlasNode(fm, SectionText(body, Summary), CollectBullets(SectionText(body, Connections)),
                   CollectBullets(SectionText(body, Sources)), SectionText(body, Notes)))
  }

  /** None for a file that does not exist; an error for a head that does not parse. */
  method ReadPage(file: Option<string>) returns (node: Result<Option<AtlasNode>>)
    ensures file == None ==> node == Ok(None)
    ensures file.Some? ==> node == match NodeOf(file.value) case Ok(n) => Ok(Some(n)) case Err(e) => Err(e)
  {
    hide Parsed, SectionText, CollectBullets;
    if file == None { return Ok(None); }
    var parsed := ParseFrontmatter(file.value);
    if parsed.Err? { return Err(parsed.error); }
    var (fm, body) := parsed.value;
    var texts := SplitSections(body);
    node := Ok(Some(AtlasNode(fm, texts.summary, CollectBullets(texts.connections),
                              CollectBullets(texts.sources), texts.notes)));
  }

  // ----- the lines of a rendered body -----

  function Block(s: Section, content: seq<string>): seq<string> {
    [HeadingLine(s), ""] + content + [""]
  }

  predicate NoHeadings(lines: seq<string>) {
    forall i :: 0 <= i < |lines| ==> SectionOf(lines[i]) == None
  }

  lemma HeadingIsFound(s: Section)
    ensures SectionOf(HeadingLine(s)) == Some(s) && '\n' !in HeadingLine(s)
  {
    var line := HeadingLine(s);
    assert line[3] == SectionName(s)[0] && line[4] == SectionName(s)[1];
    assert HeadingLine(Summary)[4] == 'u' && HeadingLine(Connections)[3] == 'C';
    assert HeadingLine(Sources)[4] == 'o' && HeadingLine(Sources)[3] == 'S' && HeadingLine(Notes)[3] == 'N';
  }

  lemma NotAHeading(line: string)
    requires line == "" || line[0] != '#' || (|line| > 1 && line[1] != '#')
    ensures SectionOf(line) == None
  {
    assert forall s :: HeadingLine(s)[0] == '#' && HeadingLine(s)[1] == '#';
  }

  lemma {:induction false} PlainLines(before: seq<string>, content: seq<string>, t: Section)
    requires NoHeadings(content)
    ensures Current(before + content) == Current(before)
    ensures SectionLines(before + content, t)
            == SectionLines(before, t) + if Current(before) == Some(t) then content else []
  {
    hide SectionOf;
    if content == [] {
      assert before + content == before;
    } else {
      var all, shorter := before + content, content[..|content| - 1];
      assert all[..|all| - 1] == before + shorter;
      PlainLines(before, shorter, t);
      assert content == shorter + [content[|content| - 1]];
    }
  }

  lemma HeadingStarts(before: seq<string>, s: Section, t: Section)
    ensures Current(before + [HeadingLine(s)]) == Some(s)
    ensures SectionLines(before + [HeadingLine(s)], t) == SectionLines(before, t)
  {
    HeadingIsFound(s);
    hide SectionOf, HeadingLine;
    assert (before + [HeadingLine(s)])[..|before|] == before;
  }

  lemma BlockLines(before: seq<string>, s: Section, content: seq<string>, t: Section)
    requires NoHeadings(content)
    ensures SectionLines(before + Block(s, content), t)
            == SectionLines(before, t) + if s == t then [""] + content + [""] else []
  {
    NotAHeading("");
    HeadingStarts(before, s, t);
    BlockShape(before, s, content);
    hide HeadingLine, SectionOf, SectionLines, Current, Block;
    PlainLines(before + [HeadingLine(s)], [""] + content + [""], t);
  }

  lemma BlockShape(before: seq<string>, s: Section, content: seq<string>)
    ensures before + Block(s, content) == before + [HeadingLine(s)] + ([""] + content + [""])
  {
    hide HeadingLine;
  }

  lemma H2Splits(s: Section, body: string)
    ensures Split(RenderH2(s, body), '\n') == Block(s, Split(body, '\n'))
  {
    HeadingIsFound(s);
    SplitNone(HeadingLine(s), '\n');
    SplitNone("", '\n');
    H2Shape(s, body);
    hide *;
    var b2 := body + ['\n'] + "";
    SplitAt(HeadingLine(s), '\n', "" + ['\n'] + b2);
    SplitAt("", '\n', b2);
    SplitAt(body, '\n', "");
  }

  lemma H2Shape(s: Section, body: string)
    ensures RenderH2(s, body) == HeadingLine(s) + ['\n'] + ("" + ['\n'] + (body + ['\n'] + ""))
  {
    hide HeadingLine;
  }

  function Front(title: string): seq<string> {
    if title != "" then Split("# " + title, '\n') + [""] else []
  }

  lemma FirstSplits(title: string, body: string)
    ensures Split((if title != "" then "# " + title + "\n\n" else "") + body, '\n') == Front(title) + Split(body, '\n')
  {
    if title != "" {
      var first := "# " + title;
      SplitNone("", '\n');
      hide Split;
      SplitAt(first, '\n', "" + ['\n'] + body);
      SplitAt("", '\n', body);
      assert first + "\n\n" + body == first + ['\n'] + ("" + ['\n'] + body);
      assert Split(first, '\n') + ([""] + Split(body, '\n')) == Front(title) + Split(body, '\n');
    } else {
      assert "" + body == body;
    }
  }

  lemma FourJoined(a: string, b: string, c: string, d: string)
    ensures Join([a, b, c, d], "\n") == a + "\n" + (b + "\n" + (c + "\n" + d))
  {
    JoinAppend([a], [b, c, d], "\n");
    JoinAppend([b], [c, d], "\n");
    JoinAppend([c], [d], "\n");
    assert [a] + [b, c, d] == [a, b, c, d] && [b] + [c, d] == [b, c, d] && [c] + [d] == [c, d];
    assert Join([a], "\n") == a && Join([b], "\n") == b && Join([c], "\n") == c && Join([d], "\n") == d;
  }

  lemma FourSplit(a: string, b: string, c: string, d: string)
    ensures Split(Join([a, b, c, d], "\n"), '\n') == Split(a, '\n') + Split(b, '\n') + Split(c, '\n') + Split(d, '\n')
  {
    FourJoined(a, b, c, d);
    hide *;
    SplitAt(a, '\n', b + "\n" + (c + "\n" + d));
    SplitAt(b, '\n', c + "\n" + d);
    SplitAt(c, '\n', d);
  }

  /** The four blocks of a body, whatever the summary. */
  function BodyLines(input: EmptyNodeInput): seq<string> {
    Front(input.title) + Block(Summary, Split(input.summary, '\n'))
    + Block(Connections, Split(Bullets(input.connections), '\n'))
    + Block(Sources, Split(Bullets(Links(input)), '\n')) + Block(Notes, [NONE_TEXT])
  }

  lemma BodySplits(input: EmptyNodeInput)
    ensures Split(RenderBody(input), '\n') == BodyLines(input)
  {
    H2Splits(Summary, input.summary);
    H2Splits(Connections, Bullets(input.connections));
    H2Splits(Sources, Bullets(Links(input)));
    H2Splits(Notes, NONE_TEXT);
    SplitNone(NONE_TEXT, '\n');
    FirstSplits(input.title, RenderH2(Summary, input.summary));
    var heading := if input.title != "" then "# " + input.title + "\n\n" else "";
    hide Split, Join, RenderH2, Block, Bullets, Links;
    FourSplit(heading + RenderH2(Summary, input.summary), RenderH2(Connections, Bullets(input.connections)),
              RenderH2(Sources, Bullets(Links(input))), RenderH2(Notes, NONE_TEXT));
  }

  lemma Unwrapped(body: string)
    ensures Trim(Join([""] + Split(body, '\n') + [""], "\n")) == Trim(body)
  {
    var lines := Split(body, '\n');
    JoinSplit(body, '\n');
    JoinAppend([""] + lines, [""], "\n");
    JoinAppend([""], lines, "\n");
    assert Join([""], "\n") == "";
    hide Split, Join, Trim;
    TrimPadded("\n", body, "\n");
    assert "" + "\n" + body + "\n" + "" == "\n" + body + "\n";
  }

  // ----- bullets -----

  predicate IsItem(item: string) {
    IsText(item) && item != ""
  }

  predicate AreItems(items: seq<string>) {
    forall i :: 0 <= i < |items| ==> IsItem(items[i])
  }

  lemma BulletReads(item: string)
    requires IsItem(item)
    ensures var line := BulletLine(item);
            Trim(line) == line && StartsWith(line, "- ") && Trim(line[2..]) == item && '\n' !in line
  {
    var line := BulletLine(item);
    assert line[0] == '-' && line[|line| - 1] == item[|item| - 1];
    assert line[2..] == item && line[..2] == "- ";
  }

  lemma {:induction false} BulletsBack(items: seq<string>)
    requires AreItems(items)
    ensures BulletsIn(Map(BulletLine, items)) == items
  {
    if items != [] {
      BulletReads(items[0]);
      BulletsBack(items[1..]);
      assert Map(BulletLine, items)[1..] == Map(BulletLine, items[1..]);
      hide Trim, BulletLine, StartsWith;
    }
  }

  lemma BulletEnds(item: string)
    requires IsItem(item)
    ensures var line := BulletLine(item);
            line != "" && line[0] == '-' && !IsSpace(line[|line| - 1])
  {
  }

  lemma BulletsAreTrimmed(items: seq<string>)
    requires AreItems(items) && items != []
    ensures Trimmed(Bullets(items)) && Bullets(items) != "" && Bullets(items)[0] == '-'
    ensures Split(Bullets(items), '\n') == Map(BulletLine, items)
  {
    var lines := Map(BulletLine, items);
    hide BulletLine, IsItem, Trim, Join, Split;
    forall i | 0 <= i < |lines| ensures '\n' !in lines[i] && lines[i] == BulletLine(items[i]) && lines[i] != "" {
      BulletReads(items[i]);
      BulletEnds(items[i]);
    }
    SplitJoin(lines, '\n');
    BulletEnds(items[0]);
    BulletEnds(items[|items| - 1]);
    JoinEnds(lines);
    assert !IsSpace('-');
  }

  lemma {:induction false} JoinEnds(lines: seq<string>)
    requires lines != [] && forall i :: 0 <= i < |lines| ==> lines[i] != ""
    ensures var text := Join(lines, "\n");
            text != "" && text[0] == lines[0][0]
            && text[|text| - 1] == lines[|lines| - 1][|lines[|lines| - 1]| - 1]
  {
    if |lines| > 1 {
      JoinEnds(lines[1..]);
      var rest := Join(lines[1..], "\n");
      assert Join(lines, "\n") == lines[0] + "\n" + rest;
      hide Join;
      assert (lines[0] + "\n" + rest)[|lines[0]| + |rest|] == rest[|rest| - 1];
    }
  }

  /** Items are collected back as they were listed. */
  lemma CollectsBack(items: seq<string>)
    requires AreItems(items)
    ensures CollectBullets(Trim(Bullets(items))) == items && NoHeadings(Split(Bullets(items), '\n'))
  {
    if items == [] {
      SplitNone(NONE_TEXT, '\n');
      assert Trimmed(NONE_TEXT);
      NotAHeading(NONE_TEXT);
    } else {
      BulletsAreTrimmed(items);
      BulletsBack(items);
      assert Trim(Bullets(items)) == Bullets(items);
      assert Bullets(items) != NONE_TEXT;
      forall i | 0 <= i < |items| ensures SectionOf(Map(BulletLine, items)[i]) == None {
        NotAHeading(BulletLine(items[i]));
      }
      hide Trim, Bullets, Split, BulletsIn;
    }
  }

  lemma {:induction false} BulletsAreItems(lines: seq<string>)
    requires forall i :: 0 <= i < |lines| ==> '\n' !in lines[i]
    ensures AreItems(BulletsIn(lines))
  {
    if lines != [] {
      BulletsAreItems(lines[1..]);
      if StartsWith(Trim(lines[0]), "- ") { BulletIsItem(lines[0]); }
      hide Trim, IsItem, StartsWith;
    }
  }

  lemma BulletIsItem(line: string)
    requires '\n' !in line && StartsWith(Trim(line), "- ")
    ensures IsItem(Trim(Trim(line)[2..]))
  {
    TrimIsText(line);
    var t := Trim(line);
    TrimIsText(t[2..]);
    hide Trim;
    assert t[..2] == "- " && t[1] == ' ';
    assert |t| > 2 && !IsSpace(t[|t| - 1]);
    assert t[2..][|t| - 3] == t[|t| - 1];
    if Trim(t[2..]) == "" { BlankIsSpace(t[2..]); }
  }

  /** Whatever is collected is an item. */
  lemma CollectedAreItems(raw: string)
    ensures AreItems(CollectBullets(raw))
  {
    JoinSplit(raw, '\n');
    BulletsAreItems(Split(raw, '\n'));
    hide Split, BulletsIn;
  }

  lemma {:induction false} BulletsConcat(a: seq<string>, b: seq<string>)
    ensures BulletsIn(a + b) == BulletsIn(a) + BulletsIn(b)
  {
    hide Trim, StartsWith;
    if a == [] {
      assert a + b == b;
    } else {
      assert (a + b)[1..] == a[1..] + b;
      BulletsConcat(a[1..], b);
    }
  }

  lemma CollectIsOfLines(raw: string)
    ensures CollectBullets(raw) == BulletsIn(Split(raw, '\n'))
  {
    if raw == "" || raw == NONE_TEXT {
      SplitNone(raw, '\n');
      assert Trimmed(raw) && Trim(raw) == raw;
      assert !StartsWith(raw, "- ");
      assert [raw][1..] == [];
    }
  }

  /** Every line of a text is collected from, whatever the lines around it: a line that is no bullet gives nothing,
      and a bullet gives its trimmed rest. */
  lemma CollectsEveryLine(x: string, y: string, line: string)
    ensures CollectBullets(x + "\n" + y) == CollectBullets(x) + CollectBullets(y)
    ensures '\n' !in line ==>
              CollectBullets(line) == if StartsWith(Trim(line), "- ") then [Trim(Trim(line)[2..])] else []
  {
    if '\n' !in line { SplitNone(line, '\n'); }
    assert [line][1..] == [] && BulletsIn([]) == [];
    hide Split, CollectBullets, Trim, StartsWith;
    CollectIsOfLines(x);
    CollectIsOfLines(y);
    CollectIsOfLines(line);
    CollectIsOfLines(x + "\n" + y);
    SplitAt(x, '\n', y);
    BulletsConcat(Split(x, '\n'), Split(y, '\n'));
  }

  // ----- reading back what was rendered -----

  /** What a reader should find: the head, the summary without white space around it, the connections,
      the sources as links, and no notes. */
  function Expected(input: EmptyNodeInput): AtlasNode {
    AtlasNode(FrontmatterFor(input), Trim(input.summary), input.connections, Links(input), NONE_TEXT)
  }

  ghost predicate IsCleanInput(input: EmptyNodeInput) {
    && IsClean(FrontmatterFor(input)) && NoHeadings(Split(input.summary, '\n'))
    && AreItems(input.connections) && AreItems(Links(input))
  }

  /** What a block adds to a section. */
  function Part(s: Section, content: seq<string>, t: Section): seq<string> {
    if s == t then [""] + content + [""] else []
  }

  /** The section texts of a body whose bullet lists are clean; the summary may hold anything. */
  lemma SectionsOf(input: EmptyNodeInput, t: Section)
    requires AreItems(input.connections) && AreItems(Links(input))
    ensures var summarised := Front(input.title) + Block(Summary, Split(input.summary, '\n'));
            SectionLines(Split(RenderBody(input), '\n'), t)
            == SectionLines(summarised, t) + Part(Connections, Split(Bullets(input.connections), '\n'), t)
               + Part(Sources, Split(Bullets(Links(input)), '\n'), t) + Part(Notes, [NONE_TEXT], t)
  {
    var summarised := Front(input.title) + Block(Summary, Split(input.summary, '\n'));
    var connections, sources := Split(Bullets(input.connections), '\n'), Split(Bullets(Links(input)), '\n');
    BodySplits(input);
    CollectsBack(input.connections);
    CollectsBack(Links(input));
    NotAHeading(NONE_TEXT);
    hide *;
    BlockPart(summarised, Connections, connections, t);
    BlockPart(summarised + Block(Connections, connections), Sources, sources, t);
    BlockPart(summarised + Block(Connections, connections) + Block(Sources, sources), Notes, [NONE_TEXT], t);
  }

  lemma BlockPart(before: seq<string>, s: Section, content: seq<string>, t: Section)
    requires NoHeadings(content)
    ensures SectionLines(before + Block(s, content), t) == SectionLines(before, t) + Part(s, content, t)
  {
    BlockLines(before, s, content, t);
  }

  predicate SpaceLines(lines: seq<string>) {
    forall i :: 0 <= i < |lines| ==> AllSpace(lines[i])
  }

  /** Text without a line break in front of another extends its first line. */
  lemma {:induction false} SplitPrefixed(p: string, s: string)
    requires '\n' !in p
    ensures Split(p + s, '\n') == [p + Split(s, '\n')[0]] + Split(s, '\n')[1..]
  {
    if p == "" {
      assert p + s == s && p + Split(s, '\n')[0] == Split(s, '\n')[0];
    } else {
      SplitPrefixed(p[1..], s);
      assert (p + s)[1..] == p[1..] + s;
      assert [p[0]] + (p[1..] + Split(s, '\n')[0]) == p + Split(s, '\n')[0];
    }
  }

  lemma SplitFirst(c: char, s: string)
    ensures Split([c] + s, '\n')
            == if c == '\n' then [""] + Split(s, '\n') else [[c] + Split(s, '\n')[0]] + Split(s, '\n')[1..]
  {
    assert ([c] + s)[1..] == s;
  }

  /** White space in front of a text puts blank lines before its first line. */
  lemma {:induction false} SplitSpaced(head: string, s: string) returns (before: seq<string>, pad: string)
    requires AllSpace(head)
    ensures SpaceLines(before)
    ensures Split(head + s, '\n') == before + [pad + Split(s, '\n')[0]] + Split(s, '\n')[1..]
  {
    hide Split, IsSpace, SpaceLines;
    if head == "" {
      before, pad := [], "";
      assert SpaceLines(before) by { NoBlankLines(); }
      assert head + s == s && pad + Split(s, '\n')[0] == Split(s, '\n')[0];
    } else {
      before, pad := SplitSpaced(head[1..], s);
      assert head + s == [head[0]] + (head[1..] + s);
      SplitFirst(head[0], head[1..] + s);
      before, pad := SpaceInFront(head[0], before, pad, Split(s, '\n')[0], Split(s, '\n')[1..]);
    }
  }

  lemma NoBlankLines()
    ensures SpaceLines([])
  {
  }

  lemma SpaceInFront(c: char, before: seq<string>, pad: string, first: string, rest: seq<string>)
    returns (before': seq<string>, pad': string)
    requires IsSpace(c) && SpaceLines(before)
    ensures SpaceLines(before')
    ensures var lines := before + [pad + first] + rest;
            before' + [pad' + first] + rest
            == if c == '\n' then [""] + lines else [[c] + lines[0]] + lines[1..]
  {
    hide IsSpace;
    if c == '\n' {
      before', pad' := [""] + before, pad;
    } else if before == [] {
      before', pad' := [], [c] + pad;
      assert [c] + (pad + first) == pad' + first;
    } else {
      before', pad' := [[c] + before[0]] + before[1..], pad;
    }
  }

  lemma {:induction false} SplitOfSpace(s: string)
    requires AllSpace(s)
    ensures SpaceLines(Split(s, '\n'))
  {
    if s != "" { SplitOfSpace(s[1..]); }
  }

  lemma {:induction false} JoinOfSpace(lines: seq<string>)
    requires SpaceLines(lines)
    ensures AllSpace(Join(lines, "\n"))
  {
    if lines != [] { JoinOfSpace(lines[1..]); }
  }

  /** The line a title is on, the lines before it and the blank ones after it. */
  lemma TitleLines(title: string) returns (before: seq<string>, line: string, after: seq<string>)
    requires '\n' !in Trim(title)
    ensures Split("# " + title, '\n') == before + [line] + after
    ensures NoHeadings(before) && SpaceLines(after)
  {
    var head, tail := TrimSplit(title);
    SplitOfSpace(tail);
    hide Trim, Split, AllSpace, NoHeadings;
    SplitPrefixed(Trim(title), tail);
    var blank, pad := SplitSpaced(head, Trim(title) + tail);
    assert title == head + (Trim(title) + tail);
    after := Split(tail, '\n')[1..];
    SplitPrefixed("# ", title);
    before, line := Headed(blank, pad + (Trim(title) + Split(tail, '\n')[0]), after);
  }

  lemma Headed(blank: seq<string>, line: string, after: seq<string>) returns (before: seq<string>, first: string)
    requires SpaceLines(blank)
    ensures var lines := blank + [line] + after;
            ["# " + lines[0]] + lines[1..] == before + [first] + after
    ensures NoHeadings(before)
  {
    if blank == [] {
      before, first := [], "# " + line;
    } else {
      before, first := ["# " + blank[0]] + blank[1..], line;
    }
    Unheaded(before, blank);
  }

  lemma Unheaded(lines: seq<string>, blank: seq<string>)
    requires SpaceLines(blank) && |lines| == |blank|
    requires lines != [] ==> lines == ["# " + blank[0]] + blank[1..]
    ensures NoHeadings(lines)
  {
    forall i | 0 <= i < |lines| ensures SectionOf(lines[i]) == None {
      if i > 0 { assert lines[i] == blank[i]; }
      NotAHeading(lines[i]);
    }
  }

  /** What a title leaves in a section is blank, even where its own line looks like a heading. */
  lemma FrontIsBlank(title: string, t: Section)
    requires '\n' !in Trim(title)
    ensures SpaceLines(SectionLines(Front(title), t))
  {
    if title != "" {
      var before, line, after := TitleLines(title);
      hide Trim, Split, SectionOf, AllSpace, NoHeadings, SectionLines, Current;
      var blank := after + [""];
      NothingRead(before, line, t);
      BlankLines(after);
      PlainLines(before + [line], blank, t);
      assert Front(title) == before + [line] + blank;
    }
  }

  lemma NothingRead(before: seq<string>, line: string, t: Section)
    requires NoHeadings(before)
    ensures SectionLines(before + [line], t) == []
  {
    PlainLines([], before, t);
    hide SectionOf, NoHeadings;
    assert [] + before == before;
    assert (before + [line])[..|before|] == before;
  }

  lemma BlankLines(after: seq<string>)
    requires SpaceLines(after)
    ensures var lines := after + [""];
            SpaceLines(lines) && NoHeadings(lines)
  {
    var lines := after + [""];
    hide SectionOf;
    forall i | 0 <= i < |lines| ensures SectionOf(lines[i]) == None {
      NotAHeading(lines[i]);
    }
  }

  lemma BlankIsTrimmed(blank: seq<string>, lines: seq<string>)
    requires SpaceLines(blank) && lines != []
    ensures Trim(Join(blank + lines, "\n")) == Trim(Join(lines, "\n"))
  {
    if blank == [] {
      assert blank + lines == lines;
    } else {
      JoinAppend(blank, lines, "\n");
      JoinOfSpace(blank);
      hide Join, Trim;
      TrimPadded(Join(blank, "\n") + "\n", Join(lines, "\n"), "");
      assert Join(blank, "\n") + "\n" + Join(lines, "\n") + "" == Join(blank, "\n") + "\n" + Join(lines, "\n");
    }
  }

  /** With a summary free of headings, every section holds its own text. */
  lemma SectionsAreBack(input: EmptyNodeInput)
    requires '\n' !in Trim(input.title) && AreItems(input.connections) && AreItems(Links(input))
    requires NoHeadings(Split(input.summary, '\n'))
    ensures var body := RenderBody(input);
            && SectionText(body, Summary) == Trim(input.summary) && SectionText(body, Notes) == NONE_TEXT
            && SectionText(body, Connections) == Trim(Bullets(input.connections))
            && SectionText(body, Sources) == Trim(Bullets(Links(input)))
  {
    var summary := Split(input.summary, '\n');
    NotesText();
    Unwrapped(input.summary);
    Unwrapped(Bullets(input.connections));
    Unwrapped(Bullets(Links(input)));
    hide *;
    PartsOf(input);
    forall t ensures SectionText(RenderBody(input), t) == Trim(Join(AllParts(input, t), "\n")) {
      var front := SectionLines(Front(input.title), t);
      SectionsOf(input, t);
      BlockPart(Front(input.title), Summary, summary, t);
      AllPartsAre(input, t, front);
      SectionTextIs(RenderBody(input), t);
      FrontIsBlank(input.title, t);
      BlankIsTrimmed(front, AllParts(input, t));
    }
  }

  function AllParts(input: EmptyNodeInput, t: Section): seq<string> {
    Part(Summary, Split(input.summary, '\n'), t) + Part(Connections, Split(Bullets(input.connections), '\n'), t)
    + Part(Sources, Split(Bullets(Links(input)), '\n'), t) + Part(Notes, [NONE_TEXT], t)
  }

  lemma AllPartsAre(input: EmptyNodeInput, t: Section, front: seq<string>)
    ensures front + AllParts(input, t)
            == front + Part(Summary, Split(input.summary, '\n'), t)
               + Part(Connections, Split(Bullets(input.connections), '\n'), t)
               + Part(Sources, Split(Bullets(Links(input)), '\n'), t) + Part(Notes, [NONE_TEXT], t)
  {
    hide Part;
  }

  /** Each section has the part of its own block only. */
  lemma PartsOf(input: EmptyNodeInput)
    ensures AllParts(input, Summary) == [""] + Split(input.summary, '\n') + [""]
    ensures AllParts(input, Connections) == [""] + Split(Bullets(input.connections), '\n') + [""]
    ensures AllParts(input, Sources) == [""] + Split(Bullets(Links(input)), '\n') + [""]
    ensures AllParts(input, Notes) == ["", NONE_TEXT, ""]
    ensures forall t :: AllParts(input, t) != []
  {
    hide Split, Bullets, Links;
  }

  lemma NotesText()
    ensures Trim(Join(["", NONE_TEXT, ""], "\n")) == NONE_TEXT
  {
    Unwrapped(NONE_TEXT);
    SplitNone(NONE_TEXT, '\n');
    assert [""] + [NONE_TEXT] + [""] == ["", NONE_TEXT, ""];
    assert Trimmed(NONE_TEXT) && Trim(NONE_TEXT) == NONE_TEXT;
  }

  /** The title is a head field, so a head that can be read has no line break inside the title. */
  lemma TitleOnOneLine(input: EmptyNodeInput)
    requires IsClean(FrontmatterFor(input))
    ensures '\n' !in Trim(input.title)
  {
    var title := Trim(input.title);
    if title != "" {
      var withTitle := NO_EXTRAS.Put("title", title);
      assert "title" in BuildExtras(input).vals && BuildExtras(input).vals["title"] == title by {
        assert withTitle.vals["title"] == title;
        hide Trim, FirstCodeSourcePath;
      }
      hide BuildExtras, Trim;
    }
  }

  /** A clean node is read back as it was rendered. */
  lemma {:induction false} PageRoundTrip(input: EmptyNodeInput)
    requires IsCleanInput(input)
    ensures NodeOf(RenderEmptyNode(input)) == Ok(Expected(input))
  {
    hide SectionText, CollectBullets, Trim, Links, RenderBody, BuildExtras, IsClean, AreItems, NoHeadings, Parsed,
         Written, Split, Bullets;
    RoundTrip(FrontmatterFor(input), RenderBody(input));
    TitleOnOneLine(input);
    SectionsAreBack(input);
    CollectsBack(input.connections);
    CollectsBack(Links(input));
  }

  // ----- and only a clean one -----

  /** The characters that are not white space. */
  function Ink(s: string): nat {
    if s == "" then 0 else Ink(s[..|s| - 1]) + if IsSpace(s[|s| - 1]) then 0 else 1
  }

  function LinesInk(lines: seq<string>): nat {
    if lines == [] then 0 else LinesInk(lines[..|lines| - 1]) + Ink(lines[|lines| - 1])
  }

  lemma {:induction false} InkConcat(a: string, b: string)
    ensures Ink(a + b) == Ink(a) + Ink(b)
  {
    if b == "" {
      assert a + b == a;
    } else {
      assert (a + b)[..|a + b| - 1] == a + b[..|b| - 1];
      InkConcat(a, b[..|b| - 1]);
    }
  }

  lemma {:induction false} LinesInkConcat(a: seq<string>, b: seq<string>)
    ensures LinesInk(a + b) == LinesInk(a) + LinesInk(b)
  {
    if b == [] {
      assert a + b == a;
    } else {
      assert (a + b)[..|a + b| - 1] == a + b[..|b| - 1];
      LinesInkConcat(a, b[..|b| - 1]);
    }
  }

  lemma {:induction false} SpaceHasNoInk(s: string)
    requires AllSpace(s)
    ensures Ink(s) == 0
  {
    if s != "" { SpaceHasNoInk(s[..|s| - 1]); }
  }

  lemma TrimKeepsInk(s: string)
    ensures Ink(Trim(s)) == Ink(s)
  {
    var head, tail := TrimSplit(s);
    hide Trim, Ink;
    SpaceHasNoInk(head);
    SpaceHasNoInk(tail);
    InkConcat(head + Trim(s), tail);
    InkConcat(head, Trim(s));
  }

  lemma {:induction false} JoinKeepsInk(lines: seq<string>)
    ensures Ink(Join(lines, "\n")) == LinesInk(lines)
  {
    if |lines| == 1 {
      assert lines[..0] == [];
    } else if |lines| > 1 {
      JoinKeepsInk(lines[1..]);
      LinesInkConcat([lines[0]], lines[1..]);
      assert [lines[0]] + lines[1..] == lines;
      assert [lines[0]][..0] == [];
      InkConcat(lines[0] + "\n", Join(lines[1..], "\n"));
      InkConcat(lines[0], "\n");
      SpaceHasNoInk("\n");
      hide Ink, Join;
    }
  }

  lemma HeadingHasInk(line: string)
    ensures SectionOf(line).Some? ==> Ink(line) > 0
  {
    if SectionOf(line).Some? {
      var last := line[|line| - 1];
      assert last == 'y' || last == 's';
    }
  }

  lemma OneMoreLine(lines: seq<string>, last: string, t: Section)
    ensures LinesInk(SectionLines(lines + [last], t)) <= LinesInk(SectionLines(lines, t)) + Ink(last)
    ensures SectionOf(last).Some? ==>
              LinesInk(SectionLines(lines + [last], t)) < LinesInk(SectionLines(lines, t)) + Ink(last)
  {
    HeadingHasInk(last);
    hide SectionOf, Ink;
    assert (lines + [last])[..|lines|] == lines && [last][..0] == [];
    LinesInkConcat(SectionLines(lines, t), [last]);
    assert SectionLines(lines, t) + [] == SectionLines(lines, t);
  }

  /** A section takes no more ink than its lines have, and less if one of them is a heading. */
  lemma {:induction false} HeadingsLoseInk(before: seq<string>, content: seq<string>, t: Section)
    ensures LinesInk(SectionLines(before + content, t)) <= LinesInk(SectionLines(before, t)) + LinesInk(content)
    ensures !NoHeadings(content) ==>
              LinesInk(SectionLines(before + content, t)) < LinesInk(SectionLines(before, t)) + LinesInk(content)
  {
    hide SectionOf, Ink, SectionLines;
    if content == [] {
      assert before + content == before;
    } else {
      var shorter, last := content[..|content| - 1], content[|content| - 1];
      HeadingsLoseInk(before, shorter, t);
      OneMoreLine(before + shorter, last, t);
      assert before + content == before + shorter + [last];
      assert !NoHeadings(content) ==> !NoHeadings(shorter) || SectionOf(last).Some?;
    }
  }

  lemma BlankHasNoInk()
    ensures LinesInk([""]) == 0 && LinesInk([]) == 0
  {
    assert [""][..0] == [];
  }

  lemma {:induction false} SpaceLinesHaveNoInk(lines: seq<string>)
    requires SpaceLines(lines)
    ensures LinesInk(lines) == 0
  {
    if lines != [] {
      SpaceLinesHaveNoInk(lines[..|lines| - 1]);
      SpaceHasNoInk(lines[|lines| - 1]);
    }
  }

  /** The block of a text with a heading in it gives its section less ink than the text has. */
  lemma BlockLosesInk(front: seq<string>, content: seq<string>, s: Section)
    requires !NoHeadings(content) && SpaceLines(SectionLines(front, s))
    ensures LinesInk(SectionLines(front + [HeadingLine(s)] + ([""] + content + [""]), s)) < LinesInk(content)
  {
    hide *;
    var begun := front + [HeadingLine(s)];
    HeadingStarts(front, s, s);
    BlankHasNoInk();
    SpaceLinesHaveNoInk(SectionLines(front, s));
    HeadingsLoseInk(begun, [""], s);
    HeadingsLoseInk(begun + [""], content, s);
    HeadingsLoseInk(begun + [""] + content, [""], s);
    assert begun + ([""] + content + [""]) == begun + [""] + content + [""];
  }

  /** A heading in the summary is not read back as part of it. */
  lemma HeadingIsLost(input: EmptyNodeInput)
    requires '\n' !in Trim(input.title) && AreItems(input.connections) && AreItems(Links(input))
    requires !NoHeadings(Split(input.summary, '\n'))
    ensures SectionText(RenderBody(input), Summary) != Trim(input.summary)
  {
    hide *;
    var content := Split(input.summary, '\n');
    var lines := SectionLines(Split(RenderBody(input), '\n'), Summary);
    FrontIsBlank(input.title, Summary);
    SummaryLines(input);
    BlockLosesInk(Front(input.title), content, Summary);
    JoinSplit(input.summary, '\n');
    JoinKeepsInk(lines);
    JoinKeepsInk(content);
    TrimKeepsInk(Join(lines, "\n"));
    TrimKeepsInk(input.summary);
    SectionTextIs(RenderBody(input), Summary);
  }

  lemma SectionTextIs(body: string, t: Section)
    ensures SectionText(body, t) == Trim(Join(SectionLines(Split(body, '\n'), t), "\n"))
  {
  }

  lemma SummaryLines(input: EmptyNodeInput)
    requires AreItems(input.connections) && AreItems(Links(input))
    ensures SectionLines(Split(RenderBody(input), '\n'), Summary)
            == SectionLines(Front(input.title) + [HeadingLine(Summary)] + ([""] + Split(input.summary, '\n') + [""]),
                            Summary)
  {
    hide *;
    var summarised := Front(input.title) + Block(Summary, Split(input.summary, '\n'));
    SectionsOf(input, Summary);
    BlockShape(Front(input.title), Summary, Split(input.summary, '\n'));
    NoPart(Connections, Split(Bullets(input.connections), '\n'));
    NoPart(Sources, Split(Bullets(Links(input)), '\n'));
    NoPart(Notes, [NONE_TEXT]);
    var lines := SectionLines(summarised, Summary);
    assert lines + [] + [] + [] == lines;
  }

  lemma NoPart(s: Section, content: seq<string>)
    requires s != Summary
    ensures Part(s, content, Summary) == []
  {
  }

  lemma ExtraKeysArePlain()
    ensures !StartsWith("title", DELIMITER) &&
            !StartsWith("aliases", DELIMITER) && !StartsWith("source_path", DELIMITER)
  {
    assert DELIMITER[0] == '-';
  }

  lemma ReadableIsClean(input: EmptyNodeInput)
    requires IsReadable(FrontmatterFor(input))
    ensures IsClean(FrontmatterFor(input))
  {
    ExtrasAreValid(input);
    ExtraKeysArePlain();
    hide BuildExtras, StartsWith, IsText;
  }

  /** Exactly the clean nodes are read back as they were rendered. */
  lemma {:induction false} PageRoundTripIff(input: EmptyNodeInput)
    ensures NodeOf(RenderEmptyNode(input)) == Ok(Expected(input)) <==> IsCleanInput(input)
  {
    if IsCleanInput(input) { PageRoundTrip(input); }
    ExtrasAreValid(input);
    var fm, body, raw := FrontmatterFor(input), RenderBody(input), RenderEmptyNode(input);
    if NodeOf(raw) == Ok(Expected(input)) {
      hide SectionText, CollectBullets, Trim, Links, RenderBody, BuildExtras, IsClean, AreItems, NoHeadings, Parsed,
           Written, Split, IsReadable, JsMap.Valid;
      ParsedIsReadable(raw);
      ReadableIsClean(input);
      TitleOnOneLine(input);
      RoundTrip(fm, body);
      CollectedAreItems(SectionText(body, Connections));
      CollectedAreItems(SectionText(body, Sources));
      if !NoHeadings(Split(input.summary, '\n')) { HeadingIsLost(input); }
    }
  }
}
