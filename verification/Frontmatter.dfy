/** The head of an atlas page: written between two --- lines, and parsed back. */
module Frontmatter {
  import opened Wrappers
  import opened Str
  import opened JsMaps

  datatype AtlasLayer = Impl | Behavior | Decision | Risk | Timeline

  datatype AtlasNodeStatus = Active | Superseded | Deprecated

  /** The time is None for a number that is not one. */
  datatype AtlasFrontmatter = AtlasFrontmatter(
    id: string, layer: AtlasLayer, status: AtlasNodeStatus, lastVerifiedCommit: string,
    lastWrittenMtime: Option<int>, sources: seq<string>, extras: JsMap<string, string>)

  const DELIMITER := "---"
  const LIST_ITEM_PREFIX := "  - "
  const CLOSE := "\n---"
  const REQUIRED_KEYS := ["id", "layer", "status", "last_verified_commit", "last_written_mtime"]

  function LayerName(l: AtlasLayer): string {
    match l
    case Impl => "impl"
    case Behavior => "behavior"
    case Decision => "decision"
    case Risk => "risk"
    case Timeline => "timeline"
  }

  function StatusName(s: AtlasNodeStatus): string {
    match s
    case Active => "active"
    case Superseded => "superseded"
    case Deprecated => "deprecated"
  }

  function ParseLayer(raw: string): Result<AtlasLayer> {
    if raw == "impl" then Ok(Impl)
    else if raw == "behavior" then Ok(Behavior)
    else if raw == "decision" then Ok(Decision)
    else if raw == "risk" then Ok(Risk)
    else if raw == "timeline" then Ok(Timeline)
    else Err("unknown layer: " + raw)
  }

  function ParseStatus(raw: string): Result<AtlasNodeStatus> {
    if raw == "active" then Ok(Active)
    else if raw == "superseded" then Ok(Superseded)
    else if raw == "deprecated" then Ok(Deprecated)
    else Err("unknown status: " + raw)
  }

  // ----- numbers as parseInt reads them: a sign, then the leading digits -----

  function LeadingDigits(s: string): (n: nat)
    ensures n <= |s|
  {
    if s != "" && IsDigit(s[0]) then 1 + LeadingDigits(s[1..]) else 0
  }

  function DigitsValue(s: string, negative: bool): Option<int> {
    var n := LeadingDigits(s);
    if n == 0 then None
    else if negative then Some(-ValueInBase(s[..n], 10))
    else Some(ValueInBase(s[..n], 10))
  }

  function ParseInt(s: string): Option<int> {
    if s != "" && (s[0] == '-' || s[0] == '+') then DigitsValue(s[1..], s[0] == '-') else DigitsValue(s, false)
  }

  function NumberText(n: Option<int>): string {
    if n == None then "NaN"
    else if n.value < 0 then "-" + NatToString(-n.value)
    else NatToString(n.value)
  }

  /** Exactly the names are layers and statuses. */
  lemma NamesReadIff(raw: string, l: AtlasLayer, s: AtlasNodeStatus)
    ensures ParseLayer(raw) == Ok(l) <==> raw == LayerName(l)
    ensures ParseStatus(raw) == Ok(s) <==> raw == StatusName(s)
    ensures ParseLayer(raw).Err? ==> ParseLayer(raw).error == "unknown layer: " + raw
    ensures ParseStatus(raw).Err? ==> ParseStatus(raw).error == "unknown status: " + raw
  {
  }

  /** The number is that of the leading digits after a sign, if there is one; whatever follows does not matter. */
  lemma NumberReadsAs(digits: string, rest: string)
    requires forall i :: 0 <= i < |digits| ==> IsDigit(digits[i])
    requires rest != "" ==> !IsDigit(rest[0])
    ensures var value, x := if digits == "" then None else Some(ValueInBase(digits, 10)), digits + rest;
            && ParseInt("+" + x) == value
            && ParseInt("-" + x) == (if digits == "" then None else Some(-ValueInBase(digits, 10)))
            && (x == "" || (x[0] != '+' && x[0] != '-') ==> ParseInt(x) == value)
  {
    var x := digits + rest;
    LeadingRead(digits, rest, false);
    LeadingRead(digits, rest, true);
    hide DigitsValue, ValueInBase;
    SignedIs(x);
  }

  lemma LeadingRead(digits: string, rest: string, negative: bool)
    requires forall i :: 0 <= i < |digits| ==> IsDigit(digits[i])
    requires rest != "" ==> !IsDigit(rest[0])
    ensures DigitsValue(digits + rest, negative)
            == if digits == "" then None
               else Some(if negative then -ValueInBase(digits, 10) else ValueInBase(digits, 10))
  {
    hide *;
    LeadingIs(digits, rest);
    DigitsTo(digits + rest, |digits|, negative);
    assert (digits + rest)[..|digits|] == digits;
  }

  lemma DigitsTo(x: string, n: nat, negative: bool)
    requires LeadingDigits(x) == n
    ensures n <= |x|
    ensures DigitsValue(x, negative)
            == if n == 0 then None
               else Some(if negative then -ValueInBase(x[..n], 10) else ValueInBase(x[..n], 10))
  {
    hide ValueInBase, LeadingDigits;
  }

  lemma SignedIs(x: string)
    ensures ParseInt("+" + x) == DigitsValue(x, false) && ParseInt("-" + x) == DigitsValue(x, true)
    ensures x == "" || (x[0] != '+' && x[0] != '-') ==> ParseInt(x) == DigitsValue(x, false)
  {
    hide DigitsValue;
    assert ("+" + x)[1..] == x && ("-" + x)[1..] == x;
  }

  lemma {:induction false} LeadingIs(digits: string, rest: string)
    requires forall i :: 0 <= i < |digits| ==> IsDigit(digits[i])
    requires rest != "" ==> !IsDigit(rest[0])
    ensures LeadingDigits(digits + rest) == |digits|
  {
    if digits == "" {
      assert digits + rest == rest;
    } else {
      assert (digits + rest)[1..] == digits[1..] + rest;
      LeadingIs(digits[1..], rest);
    }
  }

  /** A number is written without a sign unless it is below zero, and NaN stands for none. */
  lemma NumberIsWritten(n: int)
    ensures NumberText(None) == "NaN"
    ensures NumberText(Some(n)) == if n >= 0 then NatToString(n) else "-" + NatToString(-n)
  {
  }

  // ----- writing -----

  function ScalarLine(key: string, value: string): string {
    key + ": " + value
  }

  function RequiredLines(fm: AtlasFrontmatter): seq<string> {
    [ScalarLine("id", fm.id), ScalarLine("layer", LayerName(fm.layer)), ScalarLine("status", StatusName(fm.status)),
     ScalarLine("last_verified_commit", fm.lastVerifiedCommit),
     ScalarLine("last_written_mtime", NumberText(fm.lastWrittenMtime))]
  }

  function ExtraLines(keys: seq<string>, vals: map<string, string>): seq<string>
    requires forall k :: k in keys ==> k in vals
  {
    if keys == [] then []
    else ExtraLines(keys[..|keys| - 1], vals) + [ScalarLine(keys[|keys| - 1], vals[keys[|keys| - 1]])]
  }

  function SourceLines(sources: seq<string>): seq<string> {
    if sources == [] then []
    else SourceLines(sources[..|sources| - 1]) + [LIST_ITEM_PREFIX + sources[|sources| - 1]]
  }

  function HeadLines(fm: AtlasFrontmatter): (lines: seq<string>)
    requires fm.extras.Valid()
    ensures lines != []
  {
    RequiredLines(fm) + ExtraLines(fm.extras.keys, fm.extras.vals) + ["sources:"] + SourceLines(fm.sources)
  }

  function Written(fm: AtlasFrontmatter, body: string): string
    requires fm.extras.Valid()
  {
    DELIMITER + "\n" + Join(HeadLines(fm), "\n") + CLOSE + "\n\n" + body
  }

  method SerializeFrontmatter(fm: AtlasFrontmatter, body: string) returns (text: string)
    requires fm.extras.Valid()
    ensures text == Written(fm, body)
  {
    hide ScalarLine, LayerName, StatusName, NumberText, Written, RequiredLines;
    var lines := [DELIMITER];
    lines := lines + [ScalarLine("id", fm.id)];
    lines := lines + [ScalarLine("layer", LayerName(fm.layer))];
    lines := lines + [ScalarLine("status", StatusName(fm.status))];
    lines := lines + [ScalarLine("last_verified_commit", fm.lastVerifiedCommit)];
    lines := lines + [ScalarLine("last_written_mtime", NumberText(fm.lastWrittenMtime))];
    RequiredAre(fm);
    NothingYet(fm);
    hide *;
    ghost var required := lines;
    for i := 0 to |fm.extras.keys|
      invariant fm.extras.Valid() && forall k :: k in fm.extras.keys ==> k in fm.extras.vals
      invariant lines == required + ExtraLines(fm.extras.keys[..i], fm.extras.vals)
    {
      NextExtra(fm.extras.keys, fm.extras.vals, i);
      lines := lines + [ScalarLine(fm.extras.keys[i], fm.extras.vals[fm.extras.keys[i]])];
    }
    lines := lines + ["sources:"];
    ghost var front := lines;
    for i := 0 to |fm.sources|
      invariant lines == front + SourceLines(fm.sources[..i])
    {
      NextSource(fm.sources, i);
      lines := lines + [LIST_ITEM_PREFIX + fm.sources[i]];
    }
    assert fm.extras.keys[..|fm.extras.keys|] == fm.extras.keys && fm.sources[..|fm.sources|] == fm.sources;
    HeadIs(fm);
    assert lines == [DELIMITER] + HeadLines(fm);
    lines := lines + [DELIMITER];
    lines := lines + [""];
    assert lines == [DELIMITER] + HeadLines(fm) + [DELIMITER, ""];
    WrittenIs(fm, body);
    text := Join(lines, "\n") + "\n" + body;
  }

  lemma RequiredAre(fm: AtlasFrontmatter)
    ensures [DELIMITER] + [ScalarLine("id", fm.id)] + [ScalarLine("layer", LayerName(fm.layer))]
            + [ScalarLine("status", StatusName(fm.status))]
            + [ScalarLine("last_verified_commit", fm.lastVerifiedCommit)]
            + [ScalarLine("last_written_mtime", NumberText(fm.lastWrittenMtime))]
            == [DELIMITER] + RequiredLines(fm)
  {
    hide ScalarLine, LayerName, StatusName, NumberText;
  }

  lemma NothingYet(fm: AtlasFrontmatter)
    requires fm.extras.Valid()
    ensures forall k :: k in fm.extras.keys ==> k in fm.extras.vals
    ensures ExtraLines(fm.extras.keys[..0], fm.extras.vals) == [] && SourceLines(fm.sources[..0]) == []
  {
  }

  lemma NextExtra(keys: seq<string>, vals: map<string, string>, i: nat)
    requires i < |keys| && forall k :: k in keys ==> k in vals
    ensures ExtraLines(keys[..i + 1], vals) == ExtraLines(keys[..i], vals) + [ScalarLine(keys[i], vals[keys[i]])]
  {
    assert keys[..i + 1][..i] == keys[..i];
  }

  lemma NextSource(sources: seq<string>, i: nat)
    requires i < |sources|
    ensures SourceLines(sources[..i + 1]) == SourceLines(sources[..i]) + [LIST_ITEM_PREFIX + sources[i]]
  {
    assert sources[..i + 1][..i] == sources[..i];
  }

  lemma HeadIs(fm: AtlasFrontmatter)
    requires fm.extras.Valid()
    ensures [DELIMITER] + HeadLines(fm)
            == [DELIMITER] + RequiredLines(fm) + ExtraLines(fm.extras.keys, fm.extras.vals) + ["sources:"]
               + SourceLines(fm.sources)
  {
    hide RequiredLines, ExtraLines, SourceLines;
  }

  lemma WrittenIs(fm: AtlasFrontmatter, body: string)
    requires fm.extras.Valid()
    ensures Join([DELIMITER] + HeadLines(fm) + [DELIMITER, ""], "\n") + "\n" + body == Written(fm, body)
  {
    var head := HeadLines(fm);
    JoinAppend([DELIMITER] + head, [DELIMITER, ""], "\n");
    JoinAppend([DELIMITER], head, "\n");
    JoinAppend([DELIMITER], [""], "\n");
    assert [DELIMITER] + [""] == [DELIMITER, ""];
    hide HeadLines;
    assert Join([DELIMITER], "\n") == DELIMITER && Join([""], "\n") == "";
    hide Join;
    assert DELIMITER + "\n" + Join(head, "\n") + "\n" + (DELIMITER + "\n" + "") + "\n" + body
           == DELIMITER + "\n" + Join(head, "\n") + CLOSE + "\n\n" + body;
  }

  // ----- parsing -----

  datatype Document = Document(head: string, body: string)

  function SplitDocument(raw: string): Result<Document> {
    if !StartsWith(raw, DELIMITER + "\n") then Err("missing frontmatter delimiter")
    else
      var close := IndexOf(raw, CLOSE, |DELIMITER| + 1);
      if close == None then Err("missing frontmatter close delimiter")
      else
        var rest := if close.value + |DELIMITER| + 2 <= |raw| then raw[close.value + |DELIMITER| + 2..] else "";
        Ok(Document(raw[|DELIMITER| + 1..close.value], if StartsWith(rest, "\n") then rest[1..] else rest))
  }

  function ParseScalarLine(line: string): Option<(string, string)> {
    var colon := IndexOf(line, ":", 0);
    if colon == None then None else Some((Trim(line[..colon.value]), Trim(line[colon.value + 1..])))
  }

  function ListItems(lines: seq<string>): (items: seq<string>)
    ensures |items| <= |lines|
  {
    if lines != [] && StartsWith(lines[0], LIST_ITEM_PREFIX)
    then [Trim(lines[0][|LIST_ITEM_PREFIX|..])] + ListItems(lines[1..])
    else []
  }

  /** The items from a line on, and the line after them. */
  method CollectListItems(lines: seq<string>, start: nat) returns (items: seq<string>, next: nat)
    requires start <= |lines|
    ensures items == ListItems(lines[start..]) && next == start + |items| <= |lines|
  {
    hide Trim;
    items, next := [], start;
    while next < |lines| && StartsWith(lines[next], LIST_ITEM_PREFIX)
      invariant start <= next <= |lines| && next == start + |items|
      invariant ListItems(lines[start..]) == items + ListItems(lines[next..])
    {
      assert lines[next..][1..] == lines[next + 1..] && lines[next..][0] == lines[next];
      ghost var rest := ListItems(lines[next + 1..]);
      assert items + ([Trim(lines[next][|LIST_ITEM_PREFIX|..])] + rest)
             == items + [Trim(lines[next][|LIST_ITEM_PREFIX|..])] + rest;
      items := items + [Trim(lines[next][|LIST_ITEM_PREFIX|..])];
      next := next + 1;
    }
  }

  datatype Fields = Fields(record: map<string, string>, extras: JsMap<string, string>, sources: seq<string>)

  const NO_FIELDS := Fields(map[], JsMap([], map[]), [])

  function Entered(f: Fields, key: string, value: string): Fields {
    Fields(f.record[key := value], if key in REQUIRED_KEYS then f.extras else f.extras.Put(key, value), f.sources)
  }

  function ParseLines(lines: seq<string>, f: Fields): Result<Fields>
    decreases |lines|
  {
    if lines == [] then Ok(f)
    else if Trim(lines[0]) == "" then ParseLines(lines[1..], f)
    else
      var parsed := ParseScalarLine(lines[0]);
      if parsed == None then Err("malformed frontmatter line: " + lines[0])
      else if parsed.value.0 == "sources" then
        var items := ListItems(lines[1..]);
        ParseLines(lines[1 + |items|..], f.(sources := items))
      else ParseLines(lines[1..], Entered(f, parsed.value.0, parsed.value.1))
  }

  /** The first required key that was not entered. */
  function MissingKey(record: map<string, string>, keys: seq<string>): (missing: Option<string>)
    ensures missing == None ==> forall i :: 0 <= i < |keys| ==> keys[i] in record
  {
    if keys == [] then None
    else if keys[0] !in record then Some(keys[0])
    else MissingKey(record, keys[1..])
  }

  function FrontmatterOf(f: Fields): Result<AtlasFrontmatter> {
    var missing := MissingKey(f.record, REQUIRED_KEYS);
    if missing.Some? then Err("missing required frontmatter key: " + missing.value)
    else
      assert forall i :: 0 <= i < |REQUIRED_KEYS| ==> REQUIRED_KEYS[i] in f.record;
      var layer := ParseLayer(f.record[REQUIRED_KEYS[1]]);
      if layer.Err? then Err(layer.error)
      else
        var status := ParseStatus(f.record[REQUIRED_KEYS[2]]);
        if status.Err? then Err(status.error)
        else
          Ok(AtlasFrontmatter(f.record[REQUIRED_KEYS[0]], layer.value, status.value, f.record[REQUIRED_KEYS[3]],
                              ParseInt(f.record[REQUIRED_KEYS[4]]), f.sources, f.extras))
  }

  function Parsed(raw: string): Result<(AtlasFrontmatter, string)> {
    var document := SplitDocument(raw);
    if document.Err? then Err(document.error)
    else
      var fields := ParseLines(Split(document.value.head, '\n'), NO_FIELDS);
      if fields.Err? then Err(fields.error)
      else
        var fm := FrontmatterOf(fields.value);
        if fm.Err? then Err(fm.error) else Ok((fm.value, document.value.body))
  }

  method EnsureRequired(record: map<string, string>) returns (missing: Option<string>)
    ensures missing == MissingKey(record, REQUIRED_KEYS)
  {
    for i := 0 to |REQUIRED_KEYS|
      invariant MissingKey(record, REQUIRED_KEYS[i..]) == MissingKey(record, REQUIRED_KEYS)
    {
      if REQUIRED_KEYS[i] !in record { return Some(REQUIRED_KEYS[i]); }
    }
    missing := None;
  }

  /** What reading goes on with after line i. */
  lemma ParseFrom(lines: seq<string>, i: nat, f: Fields)
    requires i < |lines|
    ensures var parsed := ParseScalarLine(lines[i]);
            ParseLines(lines[i..], f)
            == if Trim(lines[i]) == "" then ParseLines(lines[i + 1..], f)
               else if parsed == None then Err("malformed frontmatter line: " + lines[i])
               else if parsed.value.0 == "sources" then
                 var items := ListItems(lines[i + 1..]);
                 ParseLines(lines[i + 1 + |items|..], f.(sources := items))
               else ParseLines(lines[i + 1..], Entered(f, parsed.value.0, parsed.value.1))
  {
    hide *;
    var rest, items := lines[i..], ListItems(lines[i + 1..]);
    assert rest[0] == lines[i] && rest[1..] == lines[i + 1..];
    assert rest[1 + |items|..] == lines[i + 1 + |items|..];
    ParseFirst(rest, f);
  }

  lemma ParseFirst(lines: seq<string>, f: Fields)
    requires lines != []
    ensures var parsed := ParseScalarLine(lines[0]);
            ParseLines(lines, f)
            == if Trim(lines[0]) == "" then ParseLines(lines[1..], f)
               else if parsed == None then Err("malformed frontmatter line: " + lines[0])
               else if parsed.value.0 == "sources" then
                 var items := ListItems(lines[1..]);
                 ParseLines(lines[1 + |items|..], f.(sources := items))
               else ParseLines(lines[1..], Entered(f, parsed.value.0, parsed.value.1))
  {
    hide Trim, ParseScalarLine, ListItems, Entered;
  }

  lemma AllParsed(lines: seq<string>, i: nat, f: Fields)
    requires i == |lines|
    ensures ParseLines(lines[i..], f) == Ok(f)
  {
  }

  method ParseFrontmatter(raw: string) returns (r: Result<(AtlasFrontmatter, string)>)
    ensures r == Parsed(raw)
  {
    hide SplitDocument, Split, ParseScalarLine, Trim, StartsWith, ListItems, MissingKey,
         ParseLayer, ParseStatus, ParseInt, ParseLines;
    var document := SplitDocument(raw);
    if document.Err? { return Err(document.error); }
    var lines := Split(document.value.head, '\n');
    var record: map<string, string>, extras: JsMap<string, string>, sources: seq<string> := map[], JsMap([], map[]), [];
    var i := 0;
    assert lines[0..] == lines;
    while i < |lines|
      invariant 0 <= i <= |lines|
      invariant ParseLines(lines[i..], Fields(record, extras, sources)) == ParseLines(lines, NO_FIELDS)
    {
      var line := lines[i];
      ParseFrom(lines, i, Fields(record, extras, sources));
      if Trim(line) == "" {
        i := i + 1;
        continue;
      }
      var parsed := ParseScalarLine(line);
      if parsed == None { return Err("malformed frontmatter line: " + line); }
      var (key, value) := parsed.value;
      if key == "sources" {
        var items, next := CollectListItems(lines, i + 1);
        sources := items;
        i := next;
        continue;
      }
      record := record[key := value];
      if key !in REQUIRED_KEYS { extras := extras.Put(key, value); }
      i := i + 1;
    }
    AllParsed(lines, i, Fields(record, extras, sources));
    var missing := EnsureRequired(record);
    if missing.Some? { return Err("missing required frontmatter key: " + missing.value); }
    var fm := FrontmatterOf(Fields(record, extras, sources));
    if fm.Err? { return Err(fm.error); }
    r := Ok((fm.value, document.value.body));
  }

  /** A head is read exactly if all required keys are there and layer and status are names; the error is that of the
      first required key that is missing, then of the layer, then of the status. */
  lemma HeadReadsIff(f: Fields)
    ensures var r, missing := FrontmatterOf(f), MissingKey(f.record, REQUIRED_KEYS);
            && (r.Ok? <==> missing == None && ParseLayer(f.record["layer"]).Ok? && ParseStatus(f.record["status"]).Ok?)
            && (missing.Some? ==> r == Err("missing required frontmatter key: " + missing.value))
            && (missing == None && r.Err? ==>
                  r.error == if ParseLayer(f.record["layer"]).Err? then "unknown layer: " + f.record["layer"]
                             else "unknown status: " + f.record["status"])
  {
    assert REQUIRED_KEYS[1] == "layer" && REQUIRED_KEYS[2] == "status";
    var missing := MissingKey(f.record, REQUIRED_KEYS);
    if missing == None {
      NamesReadIff(f.record["layer"], Impl, Active);
      NamesReadIff(f.record["status"], Impl, Active);
    }
    hide ParseLayer, ParseStatus, ParseInt, MissingKey;
  }

  lemma {:induction false} MissingIsFirst(record: map<string, string>, keys: seq<string>)
    ensures MissingKey(record, keys).Some? ==>
              exists i :: 0 <= i < |keys| && MissingKey(record, keys) == Some(keys[i]) && keys[i] !in record
                          && forall j :: 0 <= j < i ==> keys[j] in record
    ensures MissingKey(record, keys) == None <==> forall i :: 0 <= i < |keys| ==> keys[i] in record
  {
    if keys != [] && keys[0] in record {
      var rest := keys[1..];
      MissingIsFirst(record, rest);
      assert forall i :: 0 <= i < |rest| ==> rest[i] == keys[i + 1];
      assert forall i :: 0 < i < |keys| ==> keys[i] == rest[i - 1];
      if MissingKey(record, rest).Some? {
        var i :| 0 <= i < |rest| && MissingKey(record, rest) == Some(rest[i]) && rest[i] !in record
                 && forall j :: 0 <= j < i ==> rest[j] in record;
        assert keys[i + 1] == rest[i];
      }
    }
  }

  /** Of a field that is written twice the later value counts, at the earlier place. */
  lemma LaterFieldWins(f: Fields, key: string, first: string, later: string)
    ensures Entered(Entered(f, key, first), key, later) == Entered(f, key, later)
  {
    assert f.record[key := first][key := later] == f.record[key := later];
    assert f.extras.vals[key := first][key := later] == f.extras.vals[key := later];
  }

  /** And so of a list of sources: it replaces an earlier one. */
  lemma LaterSourcesWin(f: Fields, lines: seq<string>, sources: seq<string>)
    requires lines != [] && Trim(lines[0]) != "" && ParseScalarLine(lines[0]).Some?
    requires ParseScalarLine(lines[0]).value.0 == "sources"
    ensures ParseLines(lines, f) == ParseLines(lines, f.(sources := sources))
    ensures |ListItems(lines[1..])| == |lines| - 1 ==> ParseLines(lines, f) == Ok(f.(sources := ListItems(lines[1..])))
  {
    hide Trim, ParseScalarLine, ListItems;
    assert |ListItems(lines[1..])| == |lines| - 1 ==> lines[1 + |ListItems(lines[1..])|..] == [];
  }

  // ----- what survives -----

  predicate IsText(s: string) {
    Trimmed(s) && '\n' !in s
  }

  /** A key that a line can carry: no colon in it, and not one that means something else. */
  predicate IsPlainKey(key: string) {
    IsText(key) && ':' !in key && key != "sources" && !StartsWith(key, DELIMITER)
  }

  predicate IsExtraKey(key: string) {
    IsPlainKey(key) && key !in REQUIRED_KEYS
  }

  ghost predicate IsClean(fm: AtlasFrontmatter) {
    && IsText(fm.id) && IsText(fm.lastVerifiedCommit)
    && (forall i :: 0 <= i < |fm.sources| ==> IsText(fm.sources[i]))
    && fm.extras.Valid()
    && forall k :: k in fm.extras.vals ==> IsExtraKey(k) && IsText(fm.extras.vals[k])
  }

  // ----- the closing line is found -----

  predicate IsHeadLine(line: string) {
    '\n' !in line && !StartsWith(line, DELIMITER)
  }

  lemma CloseStartsAtBreak(all: string, p: nat)
    requires OccursAt(all, CLOSE, p)
    ensures all[p] == '\n' && StartsWith(all[p + 1..], DELIMITER)
  {
    assert all[p] == CLOSE[0];
    assert all[p + 1] == CLOSE[1] && all[p + 2] == CLOSE[2] && all[p + 3] == CLOSE[3];
    assert all[p + 1..][..3] == DELIMITER;
  }

  lemma {:induction false} NoEarlierClose(lines: seq<string>, rest: string, p: nat)
    requires forall i :: 0 <= i < |lines| ==> IsHeadLine(lines[i])
    requires lines != [] && p < |Join(lines, "\n")|
    ensures !OccursAt(Join(lines, "\n") + CLOSE + rest, CLOSE, p)
  {
    var all := Join(lines, "\n") + CLOSE + rest;
    var first := lines[0];
    hide OccursAt, IsHeadLine;
    if OccursAt(all, CLOSE, p) {
      CloseStartsAtBreak(all, p);
    }
    if |lines| == 1 || p < |first| {
      assert all[p] == first[p];
      HeadLineHasNoBreak(first);
    } else {
      var tail := Join(lines[1..], "\n");
      var after := tail + (CLOSE + rest);
      assert all == (first + "\n") + after;
      hide Join, StartsWith;
      if p == |first| {
        LineStartStays(lines[1..], CLOSE + rest);
        assert all[p + 1..] == after;
      } else {
        var q := p - |first| - 1;
        assert tail + CLOSE + rest == after;
        NoEarlierClose(lines[1..], rest, q);
      }
    }
  }

  lemma HeadLineHasNoBreak(line: string)
    requires IsHeadLine(line)
    ensures forall i :: 0 <= i < |line| ==> line[i] != '\n'
  {
  }

  /** What follows the first line cannot make it start like a delimiter. */
  lemma LineStartStays(lines: seq<string>, close: string)
    requires lines != [] && IsHeadLine(lines[0]) && close != "" && close[0] == '\n'
    ensures |Join(lines, "\n") + close| > 0 && !StartsWith(Join(lines, "\n") + close, DELIMITER)
  {
    var first, all := lines[0], Join(lines, "\n") + close;
    assert forall k :: 0 <= k < |first| ==> all[k] == first[k];
    assert all[|first|] == '\n';
    if |first| >= 3 {
      assert first[..3] != DELIMITER;
      assert all[..3] == first[..3];
    }
  }

  lemma CloseIsFound(lines: seq<string>, rest: string)
    requires lines != [] && forall i :: 0 <= i < |lines| ==> IsHeadLine(lines[i])
    ensures IndexOf((DELIMITER + "\n") + (Join(lines, "\n") + CLOSE + rest), CLOSE, |DELIMITER| + 1)
            == Some(|DELIMITER| + 1 + |Join(lines, "\n")|)
  {
    var head, n := Join(lines, "\n"), |DELIMITER| + 1;
    var tail := head + CLOSE + rest;
    var raw := (DELIMITER + "\n") + tail;
    forall k | n <= k < n + |head| ensures !OccursAt(raw, CLOSE, k) {
      NoEarlierClose(lines, rest, k - n);
    }
    hide Join, IsHeadLine;
    assert OccursAt(tail, CLOSE, |head|);
    hide OccursAt;
    IndexOfIs(raw, CLOSE, n, Some(n + |head|));
  }

  lemma {:induction false} DocumentSplits(lines: seq<string>, body: string)
    requires lines != [] && forall i :: 0 <= i < |lines| ==> IsHeadLine(lines[i])
    ensures SplitDocument(DELIMITER + "\n" + Join(lines, "\n") + CLOSE + "\n\n" + body)
            == Ok(Document(Join(lines, "\n"), body))
  {
    CloseIsFound(lines, "\n\n" + body);
    var head := Join(lines, "\n");
    Reassociated(head, body);
    DocumentSlices(head, body);
    hide *;
  }

  lemma Slices(a: string, b: string, c: string)
    ensures (a + b + c)[|a|..|a| + |b|] == b && (a + b + c)[|a| + |b|..] == c
  {
  }

  /** Any document: its head ends at the first line that starts with the delimiter; one character after that
      delimiter and then one more line break, if there is one, are not part of the body. */
  lemma {:induction false} AnyDocumentSplits(head: string, after: string)
    requires var raw := DELIMITER + "\n" + head + CLOSE + after;
             forall k :: 4 <= k < 4 + |head| ==> !OccursAt(raw, CLOSE, k)
    ensures SplitDocument(DELIMITER + "\n" + head + CLOSE + after)
            == Ok(Document(head, if |after| <= 1 then "" else if after[1] == '\n' then after[2..] else after[1..]))
  {
    var raw := DELIMITER + "\n" + head + CLOSE + after;
    hide *;
    DocumentParts(head, after);
    IndexOfIs(raw, CLOSE, 4, Some(4 + |head|));
    ClosedDocument(raw, head, after);
  }

  lemma ClosedDocument(raw: string, head: string, after: string)
    requires |raw| == 8 + |head| + |after| && StartsWith(raw, DELIMITER + "\n")
    requires IndexOf(raw, CLOSE, 4) == Some(4 + |head|)
    requires raw[4..4 + |head|] == head && (|after| >= 1 ==> raw[9 + |head|..] == after[1..])
    ensures SplitDocument(raw)
            == Ok(Document(head, if |after| <= 1 then "" else if after[1] == '\n' then after[2..] else after[1..]))
  {
    hide IndexOf;
    assert |DELIMITER| == 3;
    var rest := if |after| >= 1 then after[1..] else "";
    assert |rest| >= 1 ==> (StartsWith(rest, "\n") <==> after[1] == '\n') && rest[1..] == after[2..];
    assert |rest| == 0 ==> !StartsWith(rest, "\n");
  }

  lemma DocumentParts(head: string, after: string)
    ensures var raw := DELIMITER + "\n" + head + CLOSE + after;
            && |raw| == 8 + |head| + |after| && StartsWith(raw, DELIMITER + "\n") && OccursAt(raw, CLOSE, 4 + |head|)
            && raw[4..4 + |head|] == head && (|after| >= 1 ==> raw[9 + |head|..] == after[1..])
  {
    var raw, front := DELIMITER + "\n" + head + CLOSE + after, DELIMITER + "\n";
    assert raw == front + head + (CLOSE + after);
    Slices(front, head, CLOSE + after);
    assert |front| == 4 && |CLOSE| == 4 && raw[..4] == front;
    assert raw[4 + |head|..] == CLOSE + after;
    assert forall j :: 0 <= j < 4 ==> raw[4 + |head| + j] == (CLOSE + after)[j];
    if |after| >= 1 { assert raw[4 + |head|..][5..] == after[1..] && raw[9 + |head|..] == raw[4 + |head|..][5..]; }
  }

  /** And what is none: no delimiter in front, or none that closes the head. */
  lemma NoDocument(raw: string)
    ensures !StartsWith(raw, DELIMITER + "\n") ==> SplitDocument(raw) == Err("missing frontmatter delimiter")
    ensures StartsWith(raw, DELIMITER + "\n") && (forall k :: 4 <= k ==> !OccursAt(raw, CLOSE, k)) ==>
              SplitDocument(raw) == Err("missing frontmatter close delimiter")
  {
    IndexOfFirst(raw, CLOSE, 4);
    hide StartsWith;
  }

  lemma DocumentSlices(head: string, body: string)
    ensures var raw := DELIMITER + "\n" + head + CLOSE + "\n\n" + body;
            var close := |DELIMITER| + 1 + |head|;
            && StartsWith(raw, DELIMITER + "\n") && close + |DELIMITER| + 2 <= |raw|
            && raw[|DELIMITER| + 1..close] == head
            && raw[close + |DELIMITER| + 2..] == "\n" + body
  {
    var raw := DELIMITER + "\n" + head + CLOSE + "\n\n" + body;
    Slices(DELIMITER + "\n", head, CLOSE + "\n\n" + body);
    Slices(DELIMITER + "\n" + head, CLOSE + "\n", "\n" + body);
    assert raw == DELIMITER + "\n" + head + (CLOSE + "\n\n" + body);
    assert raw == DELIMITER + "\n" + head + (CLOSE + "\n") + ("\n" + body);
  }

  lemma Reassociated(head: string, body: string)
    ensures (DELIMITER + "\n") + (head + CLOSE + ("\n\n" + body)) == DELIMITER + "\n" + head + CLOSE + "\n\n" + body
  {
  }

  // ----- the lines are read back -----

  lemma BlankIsSpace(line: string)
    requires Trim(line) == ""
    ensures AllSpace(line)
  {
    var head, tail := TrimSplit(line);
    assert line == head + tail;
  }

  lemma TextIsTrimmed(s: string)
    requires Trimmed(s)
    ensures Trim(s) == s && Trim(" " + s) == s
  {
    TrimPadded(" ", s, "");
    assert " " + s + "" == " " + s;
  }

  lemma ScalarReads(key: string, value: string)
    requires IsText(key) && ':' !in key && Trimmed(value)
    ensures ParseScalarLine(key + ":" + value) == Some((key, value)) && Trim(key + ":" + value) != ""
    ensures ParseScalarLine(ScalarLine(key, value)) == Some((key, value)) && Trim(ScalarLine(key, value)) != ""
  {
    TextIsTrimmed(key);
    TextIsTrimmed(value);
    assert ScalarLine(key, value) == key + ":" + (" " + value);
    hide *;
    ColonSplits(key, value);
    ColonSplits(key, " " + value);
  }

  lemma ColonSplits(key: string, after: string)
    requires ':' !in key
    ensures ParseScalarLine(key + ":" + after) == Some((Trim(key), Trim(after)))
    ensures Trim(key + ":" + after) != ""
  {
    var line := key + ":" + after;
    forall k | 0 <= k < |key| ensures !OccursAt(line, ":", k) {
      assert line[k] == key[k];
      assert ":"[0] == ':';
    }
    assert OccursAt(line, ":", |key|);
    IndexOfIs(line, ":", 0, Some(|key|));
    assert line[..|key|] == key && line[|key| + 1..] == after;
    assert !IsSpace(line[|key|]);
    if Trim(line) == "" { BlankIsSpace(line); }
  }

  lemma ScalarStep(key: string, value: string, rest: seq<string>, f: Fields)
    requires IsPlainKey(key) && IsText(value)
    ensures ParseLines([ScalarLine(key, value)] + rest, f) == ParseLines(rest, Entered(f, key, value))
  {
    ScalarReads(key, value);
    hide Trim, ParseScalarLine, ScalarLine, Entered, IsText, StartsWith;
    var lines := [ScalarLine(key, value)] + rest;
    assert lines[1..] == rest;
  }

  function EnteredAll(f: Fields, keys: seq<string>, vals: map<string, string>): Fields
    requires forall k :: k in keys ==> k in vals
  {
    if keys == [] then f
    else Entered(EnteredAll(f, keys[..|keys| - 1], vals), keys[|keys| - 1], vals[keys[|keys| - 1]])
  }

  lemma {:induction false} ExtrasStep(keys: seq<string>, vals: map<string, string>, rest: seq<string>, f: Fields)
    requires forall k :: k in keys ==> k in vals && IsExtraKey(k) && IsText(vals[k])
    ensures ParseLines(ExtraLines(keys, vals) + rest, f) == ParseLines(rest, EnteredAll(f, keys, vals))
  {
    if keys == [] {
      assert ExtraLines(keys, vals) + rest == rest;
    } else {
      var last := keys[|keys| - 1];
      var line := ScalarLine(last, vals[last]);
      hide ParseLines, ScalarLine, Entered, IsText, StartsWith;
      ExtrasStep(keys[..|keys| - 1], vals, [line] + rest, f);
      ScalarStep(last, vals[last], rest, EnteredAll(f, keys[..|keys| - 1], vals));
      assert ExtraLines(keys, vals) + rest == ExtraLines(keys[..|keys| - 1], vals) + ([line] + rest);
    }
  }

  lemma ExtraIsPut(f: Fields, key: string, value: string)
    requires IsExtraKey(key)
    ensures Entered(f, key, value) == f.(record := f.record[key := value], extras := f.extras.Put(key, value))
    ensures key !in REQUIRED_KEYS
  {
    hide StartsWith, IsText;
  }

  lemma {:induction false} ExtrasAre(f: Fields, keys: seq<string>, vals: map<string, string>)
    requires Distinct(keys) && f.extras == JsMap([], map[])
    requires forall k :: k in keys ==> k in vals && IsExtraKey(k)
    ensures var all := EnteredAll(f, keys, vals);
            && all.extras.keys == keys && all.sources == f.sources
            && (forall k :: k in all.extras.vals <==> k in keys)
            && (forall k :: k in keys ==> all.extras.vals[k] == vals[k])
            && (forall k :: k in REQUIRED_KEYS && k in f.record ==> k in all.record && all.record[k] == f.record[k])
  {
    if keys != [] {
      var before, last := keys[..|keys| - 1], keys[|keys| - 1];
      assert keys == before + [last];
      ExtrasAre(f, before, vals);
      ExtraIsPut(EnteredAll(f, before, vals), last, vals[last]);
      hide Entered, IsExtraKey;
      assert last !in before;
    }
  }

  lemma ItemStep(source: string, rest: seq<string>)
    requires Trimmed(source)
    ensures ListItems([LIST_ITEM_PREFIX + source] + rest) == [source] + ListItems(rest)
  {
    var line := LIST_ITEM_PREFIX + source;
    TextIsTrimmed(source);
    hide Trim;
    assert line[|LIST_ITEM_PREFIX|..] == source && line[..|LIST_ITEM_PREFIX|] == LIST_ITEM_PREFIX;
    assert ([line] + rest)[1..] == rest;
  }

  lemma {:induction false} ItemsAre(sources: seq<string>, rest: seq<string>)
    requires forall i :: 0 <= i < |sources| ==> Trimmed(sources[i])
    ensures ListItems(SourceLines(sources) + rest) == sources + ListItems(rest)
  {
    hide ListItems, Trimmed;
    if sources == [] {
      assert SourceLines(sources) + rest == rest;
    } else {
      var before, last := sources[..|sources| - 1], sources[|sources| - 1];
      var line := LIST_ITEM_PREFIX + last;
      ItemsAre(before, [line] + rest);
      ItemStep(last, rest);
      assert SourceLines(sources) + rest == SourceLines(before) + ([line] + rest);
      assert before + ([last] + ListItems(rest)) == sources + ListItems(rest);
    }
  }

  lemma {:induction false} SourceLinesMany(sources: seq<string>)
    ensures |SourceLines(sources)| == |sources|
  {
    if sources != [] { SourceLinesMany(sources[..|sources| - 1]); }
  }

  lemma SourcesUnfold(lines: seq<string>, value: string, f: Fields)
    requires lines != [] && Trim(lines[0]) != "" && ParseScalarLine(lines[0]) == Some(("sources", value))
    requires |ListItems(lines[1..])| == |lines| - 1
    ensures ParseLines(lines, f) == Ok(f.(sources := ListItems(lines[1..])))
  {
    hide Trim, ParseScalarLine, ListItems;
    assert lines[1 + |ListItems(lines[1..])|..] == [];
  }

  lemma SourcesStep(sources: seq<string>, f: Fields)
    requires forall i :: 0 <= i < |sources| ==> Trimmed(sources[i])
    ensures ParseLines(["sources:"] + SourceLines(sources), f) == Ok(f.(sources := sources))
  {
    assert ListItems([]) == [];
    var lines := ["sources:"] + SourceLines(sources);
    assert "sources" + ":" + "" == "sources:";
    ScalarReads("sources", "");
    ItemsAre(sources, []);
    SourceLinesMany(sources);
    hide Trim, ParseScalarLine, SourceLines, ListItems, ParseLines, Trimmed;
    assert lines[1..] == SourceLines(sources) && SourceLines(sources) + [] == SourceLines(sources);
    assert sources + [] == sources;
    SourcesUnfold(lines, "", f);
  }

  // ----- the round trip -----

  lemma NamesAreText(fm: AtlasFrontmatter)
    ensures IsText(LayerName(fm.layer)) && IsText(StatusName(fm.status)) && IsText(NumberText(fm.lastWrittenMtime))
  {
    if fm.lastWrittenMtime.Some? {
      NatIsDigits(if fm.lastWrittenMtime.value < 0 then -fm.lastWrittenMtime.value else fm.lastWrittenMtime.value);
    }
  }

  lemma ScalarIsHeadLine(key: string, value: string)
    requires IsPlainKey(key) && IsText(value)
    ensures IsHeadLine(ScalarLine(key, value))
  {
    var line := ScalarLine(key, value);
    assert forall k :: 0 <= k < |key| ==> line[k] == key[k];
    assert line[|key|] == ':';
    assert |key| >= 3 ==> key[..3] == line[..3];
  }

  lemma KeyIsPlain(i: nat)
    requires i < |REQUIRED_KEYS|
    ensures IsPlainKey(REQUIRED_KEYS[i])
  {
    var key := REQUIRED_KEYS[i];
    assert i == 0 || i == 1 || i == 2 || i == 3 || i == 4;
    assert key[0] == 'i' || key[0] == 'l' || (key[0] == 's' && key[1] == 't');
    assert "sources"[0] == 's' && "sources"[1] == 'o';
    assert StartsWith(key, DELIMITER) ==> key[0] == DELIMITER[0];
  }

  lemma KeysArePlain()
    ensures IsPlainKey("id") && IsPlainKey("layer") && IsPlainKey("status")
    ensures IsPlainKey("last_verified_commit") && IsPlainKey("last_written_mtime")
  {
    KeyIsPlain(0);
    KeyIsPlain(1);
    KeyIsPlain(2);
    KeyIsPlain(3);
    KeyIsPlain(4);
    hide IsPlainKey;
  }

  lemma RequiredAreHeadLines(fm: AtlasFrontmatter)
    requires IsText(fm.id) && IsText(fm.lastVerifiedCommit)
    ensures forall i :: 0 <= i < |RequiredLines(fm)| ==> IsHeadLine(RequiredLines(fm)[i])
  {
    NamesAreText(fm);
    KeysArePlain();
    hide LayerName, StatusName, NumberText, ScalarLine, IsHeadLine, IsText, IsPlainKey;
    ScalarIsHeadLine("id", fm.id);
    ScalarIsHeadLine("layer", LayerName(fm.layer));
    ScalarIsHeadLine("status", StatusName(fm.status));
    ScalarIsHeadLine("last_verified_commit", fm.lastVerifiedCommit);
    ScalarIsHeadLine("last_written_mtime", NumberText(fm.lastWrittenMtime));
  }

  lemma {:induction false} ExtrasAreHeadLines(keys: seq<string>, vals: map<string, string>)
    requires forall k :: k in keys ==> k in vals && IsExtraKey(k) && IsText(vals[k])
    ensures forall i :: 0 <= i < |ExtraLines(keys, vals)| ==> IsHeadLine(ExtraLines(keys, vals)[i])
  {
    if keys != [] {
      ExtrasAreHeadLines(keys[..|keys| - 1], vals);
      ScalarIsHeadLine(keys[|keys| - 1], vals[keys[|keys| - 1]]);
      hide IsHeadLine, ScalarLine, StartsWith;
    }
  }

  lemma {:induction false} SourcesAreHeadLines(sources: seq<string>)
    requires forall i :: 0 <= i < |sources| ==> IsText(sources[i])
    ensures forall i :: 0 <= i < |SourceLines(sources)| ==> IsHeadLine(SourceLines(sources)[i])
  {
    if sources != [] {
      SourcesAreHeadLines(sources[..|sources| - 1]);
      var line := LIST_ITEM_PREFIX + sources[|sources| - 1];
      assert line[0] == ' ' && IsHeadLine(line);
      hide IsHeadLine;
    }
  }

  lemma AllAreHeadLines(fm: AtlasFrontmatter)
    requires IsClean(fm)
    ensures forall i :: 0 <= i < |HeadLines(fm)| ==> IsHeadLine(HeadLines(fm)[i])
  {
    RequiredAreHeadLines(fm);
    ExtrasAreHeadLines(fm.extras.keys, fm.extras.vals);
    SourcesAreHeadLines(fm.sources);
    assert "sources:"[0] != '-' && IsHeadLine("sources:");
    hide IsHeadLine, RequiredLines, ExtraLines, SourceLines, IsClean;
  }

  lemma KeysDiffer()
    ensures forall i, j :: 0 <= i < j < |REQUIRED_KEYS| ==> REQUIRED_KEYS[i] != REQUIRED_KEYS[j]
  {
    forall i, j | 0 <= i < j < |REQUIRED_KEYS| ensures REQUIRED_KEYS[i] != REQUIRED_KEYS[j] {
      assert |REQUIRED_KEYS[i]| == if i == 0 then 2 else if i == 1 then 5
                                      else if i == 2 then 6 else if i == 3 then 20 else 18;
      assert |REQUIRED_KEYS[j]| == if j == 1 then 5 else if j == 2 then 6 else if j == 3 then 20 else 18;
    }
  }

  function RequiredRecord(fm: AtlasFrontmatter): map<string, string> {
    var none: map<string, string> := map[];
    none["id" := fm.id]["layer" := LayerName(fm.layer)]["status" := StatusName(fm.status)]
        ["last_verified_commit" := fm.lastVerifiedCommit]["last_written_mtime" := NumberText(fm.lastWrittenMtime)]
  }

  lemma EnteredRequired(f: Fields, i: nat, value: string)
    requires i < |REQUIRED_KEYS|
    ensures Entered(f, REQUIRED_KEYS[i], value) == f.(record := f.record[REQUIRED_KEYS[i] := value])
  {
  }

  lemma FiveLines(a: string, b: string, c: string, d: string, e: string, rest: seq<string>)
    ensures [a, b, c, d, e] + rest == [a] + ([b] + ([c] + ([d] + ([e] + rest))))
  {
  }

  lemma RequiredStep(fm: AtlasFrontmatter, rest: seq<string>)
    requires IsText(fm.id) && IsText(fm.lastVerifiedCommit)
    ensures ParseLines(RequiredLines(fm) + rest, NO_FIELDS)
            == ParseLines(rest, Fields(RequiredRecord(fm), JsMap([], map[]), []))
  {
    NamesAreText(fm);
    KeysArePlain();
    hide ParseLines, LayerName, StatusName, NumberText, ScalarLine, Entered, IsText, IsPlainKey;
    var layer, status, mtime := LayerName(fm.layer), StatusName(fm.status), NumberText(fm.lastWrittenMtime);
    EnteredRequired(NO_FIELDS, 0, fm.id);
    var f1 := Entered(NO_FIELDS, "id", fm.id);
    EnteredRequired(f1, 1, layer);
    var f2 := Entered(f1, "layer", layer);
    EnteredRequired(f2, 2, status);
    var f3 := Entered(f2, "status", status);
    EnteredRequired(f3, 3, fm.lastVerifiedCommit);
    var f4 := Entered(f3, "last_verified_commit", fm.lastVerifiedCommit);
    EnteredRequired(f4, 4, mtime);
    assert Entered(f4, "last_written_mtime", mtime) == Fields(RequiredRecord(fm), JsMap([], map[]), []);
    hide RequiredRecord;
    var l5 := [ScalarLine("last_written_mtime", mtime)] + rest;
    var l4 := [ScalarLine("last_verified_commit", fm.lastVerifiedCommit)] + l5;
    var l3 := [ScalarLine("status", status)] + l4;
    var l2 := [ScalarLine("layer", layer)] + l3;
    FiveLines(ScalarLine("id", fm.id), ScalarLine("layer", layer), ScalarLine("status", status),
              ScalarLine("last_verified_commit", fm.lastVerifiedCommit), ScalarLine("last_written_mtime", mtime), rest);
    ScalarStep("id", fm.id, l2, NO_FIELDS);
    ScalarStep("layer", layer, l3, f1);
    ScalarStep("status", status, l4, f2);
    ScalarStep("last_verified_commit", fm.lastVerifiedCommit, l5, f3);
    ScalarStep("last_written_mtime", mtime, rest, f4);
  }

  lemma HeadShape(fm: AtlasFrontmatter)
    requires fm.extras.Valid()
    ensures forall k :: k in fm.extras.keys ==> k in fm.extras.vals
    ensures HeadLines(fm)
            == RequiredLines(fm)
               + (ExtraLines(fm.extras.keys, fm.extras.vals) + (["sources:"] + SourceLines(fm.sources)))
  {
    hide RequiredLines, ExtraLines, SourceLines;
  }

  lemma HeadParses(fm: AtlasFrontmatter)
    requires IsClean(fm)
    ensures forall k :: k in fm.extras.keys ==> k in fm.extras.vals
    ensures var f := EnteredAll(Fields(RequiredRecord(fm), JsMap([], map[]), []), fm.extras.keys, fm.extras.vals);
            ParseLines(HeadLines(fm), NO_FIELDS) == Ok(f.(sources := fm.sources))
  {
    var f0 := Fields(RequiredRecord(fm), JsMap([], map[]), []);
    HeadShape(fm);
    hide RequiredLines, HeadLines, ExtraLines, SourceLines, ParseLines, EnteredAll, RequiredRecord, IsExtraKey, Trimmed;
    var sources := ["sources:"] + SourceLines(fm.sources);
    var extras := ExtraLines(fm.extras.keys, fm.extras.vals);
    RequiredStep(fm, extras + sources);
    ExtrasStep(fm.extras.keys, fm.extras.vals, sources, f0);
    SourcesStep(fm.sources, EnteredAll(f0, fm.extras.keys, fm.extras.vals));
  }

  lemma {:induction false} DigitsLead(s: string)
    requires forall i :: 0 <= i < |s| ==> IsDigit(s[i])
    ensures LeadingDigits(s) == |s|
  {
    if s != "" { DigitsLead(s[1..]); }
  }

  lemma {:induction false} DigitsRead(digits: string)
    requires AllDigits(digits)
    ensures ParseInt(digits) == Some(ValueInBase(digits, 10))
    ensures ParseInt("-" + digits) == Some(-ValueInBase(digits, 10))
  {
    DigitsLead(digits);
    assert digits[..|digits|] == digits;
    assert ("-" + digits)[1..] == digits;
    hide LeadingDigits, ValueInBase;
  }

  lemma NumberReads(n: Option<int>)
    ensures ParseInt(NumberText(n)) == n
  {
    if n.Some? {
      var abs := if n.value < 0 then -n.value else n.value;
      hide ParseInt, ValueInBase, NatToBase, AllDigits, LeadingDigits;
      NatIsDigits(abs);
      ValueOfNat(abs, 10);
      DigitsRead(NatToString(abs));
    }
  }

  lemma {:induction false} NoneMissing(record: map<string, string>, keys: seq<string>)
    requires forall i :: 0 <= i < |keys| ==> keys[i] in record
    ensures MissingKey(record, keys) == None
  {
    if keys != [] { NoneMissing(record, keys[1..]); }
  }

  lemma FieldsGiveBack(fm: AtlasFrontmatter, f: Fields)
    requires forall i :: 0 <= i < |REQUIRED_KEYS| ==>
               REQUIRED_KEYS[i] in f.record && f.record[REQUIRED_KEYS[i]] == RequiredRecord(fm)[REQUIRED_KEYS[i]]
    requires f.sources == fm.sources && f.extras == fm.extras
    ensures FrontmatterOf(f) == Ok(fm)
  {
    RequiredValues(fm);
    hide RequiredRecord;
    NoneMissing(f.record, REQUIRED_KEYS);
    NumberReads(fm.lastWrittenMtime);
    NamesRead(fm);
    hide LayerName, StatusName, NumberText, ParseLayer, ParseStatus, ParseInt, MissingKey;
  }

  lemma RequiredValues(fm: AtlasFrontmatter)
    ensures var record := RequiredRecord(fm);
            && |REQUIRED_KEYS| == 5 && (forall i :: 0 <= i < 5 ==> REQUIRED_KEYS[i] in record)
            && record[REQUIRED_KEYS[0]] == fm.id && record[REQUIRED_KEYS[1]] == LayerName(fm.layer)
            && record[REQUIRED_KEYS[2]] == StatusName(fm.status)
            && record[REQUIRED_KEYS[3]] == fm.lastVerifiedCommit
            && record[REQUIRED_KEYS[4]] == NumberText(fm.lastWrittenMtime)
  {
    KeysDiffer();
    hide LayerName, StatusName, NumberText;
  }

  lemma NamesRead(fm: AtlasFrontmatter)
    ensures ParseLayer(LayerName(fm.layer)) == Ok(fm.layer) && ParseStatus(StatusName(fm.status)) == Ok(fm.status)
  {
  }

  /** Parsing what was written gives back the head and, exactly, the body. */
  lemma {:induction false} RoundTrip(fm: AtlasFrontmatter, body: string)
    requires IsClean(fm)
    ensures Parsed(Written(fm, body)) == Ok((fm, body))
  {
    var lines := HeadLines(fm);
    AllAreHeadLines(fm);
    DocumentSplits(lines, body);
    LinesAreBack(lines);
    HeadParses(fm);
    var f0 := Fields(RequiredRecord(fm), JsMap([], map[]), []);
    ExtrasAre(f0, fm.extras.keys, fm.extras.vals);
    var f := EnteredAll(f0, fm.extras.keys, fm.extras.vals).(sources := fm.sources);
    hide HeadLines, Join, Split, SplitDocument, ParseLines, EnteredAll, IsHeadLine, IsText, IsExtraKey, FrontmatterOf;
    assert f.extras.vals == fm.extras.vals;
    FieldsGiveBack(fm, f);
  }

  lemma {:induction false} LinesAreBack(lines: seq<string>)
    requires lines != [] && forall i :: 0 <= i < |lines| ==> IsHeadLine(lines[i])
    ensures Split(Join(lines, "\n"), '\n') == lines
  {
    SplitJoin(lines, '\n');
  }

  // ----- and only what is clean comes back -----

  predicate IsFieldKey(key: string) {
    IsText(key) && ':' !in key && key !in REQUIRED_KEYS && key != "sources"
  }

  /** Whatever is parsed is trimmed and on one line. */
  ghost predicate FieldsAreText(f: Fields) {
    && (forall k :: k in f.record ==> IsText(f.record[k]))
    && (forall i :: 0 <= i < |f.sources| ==> IsText(f.sources[i]))
    && f.extras.Valid()
    && forall k :: k in f.extras.vals ==> IsFieldKey(k) && IsText(f.extras.vals[k])
  }

  lemma TrimIsText(s: string)
    requires '\n' !in s
    ensures IsText(Trim(s))
    ensures forall c :: c in Trim(s) ==> c in s
  {
    TrimIsTrimmed(s);
    var head, tail := TrimSplit(s);
    hide Trim;
    assert forall i :: 0 <= i < |Trim(s)| ==> s[|head| + i] == Trim(s)[i];
  }

  lemma ScalarIsText(line: string)
    requires '\n' !in line && ParseScalarLine(line).Some?
    ensures var (key, value) := ParseScalarLine(line).value;
            IsText(key) && ':' !in key && IsText(value)
  {
    var colon := IndexOf(line, ":", 0).value;
    IndexOfFirst(line, ":", 0);
    forall i | 0 <= i < colon ensures line[i] != ':' {
      assert !OccursAt(line, ":", i);
    }
    TrimIsText(line[..colon]);
    TrimIsText(line[colon + 1..]);
    hide Trim, IsText, IndexOf;
  }

  lemma {:induction false} ItemsAreText(lines: seq<string>)
    requires forall i :: 0 <= i < |lines| ==> '\n' !in lines[i]
    ensures forall i :: 0 <= i < |ListItems(lines)| ==> IsText(ListItems(lines)[i])
  {
    if lines != [] && StartsWith(lines[0], LIST_ITEM_PREFIX) {
      TrimIsText(lines[0][|LIST_ITEM_PREFIX|..]);
      ItemsAreText(lines[1..]);
      hide Trim, IsText;
    }
  }

  lemma EnteredIsText(f: Fields, key: string, value: string)
    requires FieldsAreText(f) && IsText(key) && ':' !in key && key != "sources" && IsText(value)
    ensures FieldsAreText(Entered(f, key, value))
  {
    hide IsText;
    if key !in REQUIRED_KEYS { PutValid(f.extras, key, value); }
    hide JsMap.Valid;
  }

  lemma {:induction false} LinesAreText(lines: seq<string>, f: Fields)
    requires forall i :: 0 <= i < |lines| ==> '\n' !in lines[i]
    requires FieldsAreText(f) && ParseLines(lines, f).Ok?
    ensures FieldsAreText(ParseLines(lines, f).value)
    decreases |lines|
  {
    if lines != [] {
      hide FieldsAreText, Trim, ParseScalarLine, ListItems, Entered, IsText;
      if Trim(lines[0]) == "" {
        LinesAreText(lines[1..], f);
      } else {
        ScalarIsText(lines[0]);
        var (key, value) := ParseScalarLine(lines[0]).value;
        if key == "sources" {
          ItemsAreText(lines[1..]);
          SourcesAreText(f, ListItems(lines[1..]));
          LinesAreText(lines[1 + |ListItems(lines[1..])|..], f.(sources := ListItems(lines[1..])));
        } else {
          EnteredIsText(f, key, value);
          LinesAreText(lines[1..], Entered(f, key, value));
        }
      }
    }
  }

  lemma SourcesAreText(f: Fields, items: seq<string>)
    requires FieldsAreText(f) && forall i :: 0 <= i < |items| ==> IsText(items[i])
    ensures FieldsAreText(f.(sources := items))
  {
  }

  /** Clean but for keys that look like a delimiter. */
  ghost predicate IsReadable(fm: AtlasFrontmatter) {
    && IsText(fm.id) && IsText(fm.lastVerifiedCommit)
    && (forall i :: 0 <= i < |fm.sources| ==> IsText(fm.sources[i]))
    && fm.extras.Valid()
    && forall k :: k in fm.extras.vals ==> IsFieldKey(k) && IsText(fm.extras.vals[k])
  }

  lemma FieldsAreReadable(f: Fields)
    requires FieldsAreText(f) && FrontmatterOf(f).Ok?
    ensures IsReadable(FrontmatterOf(f).value)
  {
    hide ParseLayer, ParseStatus, ParseInt, MissingKey, IsText, IsFieldKey;
  }

  lemma NoFieldsAreText()
    ensures FieldsAreText(NO_FIELDS)
  {
  }

  lemma {:induction false} ParsedIsReadable(raw: string)
    requires Parsed(raw).Ok?
    ensures IsReadable(Parsed(raw).value.0)
  {
    hide SplitDocument, Split, ParseLines, FrontmatterOf, FieldsAreText, IsReadable;
    var head := SplitDocument(raw).value.head;
    JoinSplit(head, '\n');
    NoFieldsAreText();
    LinesAreText(Split(head, '\n'), NO_FIELDS);
    FieldsAreReadable(ParseLines(Split(head, '\n'), NO_FIELDS).value);
  }

  lemma {:induction false} ExtraLineAt(keys: seq<string>, vals: map<string, string>, i: nat)
    requires i < |keys| && forall k :: k in keys ==> k in vals
    ensures |ExtraLines(keys, vals)| == |keys| && ExtraLines(keys, vals)[i] == ScalarLine(keys[i], vals[keys[i]])
  {
    hide ScalarLine;
    if i < |keys| - 1 {
      ExtraLineAt(keys[..|keys| - 1], vals, i);
    } else if |keys| > 1 {
      ExtraLineAt(keys[..|keys| - 1], vals, 0);
    }
  }

  lemma BreakBefore(lines: seq<string>, i: nat)
    requires 0 < i < |lines| && StartsWith(lines[i], DELIMITER)
    ensures OccursAt(Join(lines, "\n"), CLOSE, |Join(lines[..i], "\n")|)
  {
    var front, back := Join(lines[..i], "\n"), Join(lines[i..], "\n");
    JoinAppend(lines[..i], lines[i..], "\n");
    assert lines[..i] + lines[i..] == lines;
    assert StartsWith(back, DELIMITER);
    hide Join;
    assert front + "\n" + back == front + ("\n" + back);
    assert forall j :: 0 <= j < |CLOSE| ==> CLOSE[j] == ("\n" + back)[j];
  }

  /** A close found too early leaves too much for the body. */
  lemma EarlyClose(raw: string, close: nat, p: nat, body: string)
    requires StartsWith(raw, DELIMITER + "\n") && |DELIMITER| + 1 <= p < close && OccursAt(raw, CLOSE, p)
    requires |raw| == close + |DELIMITER| + 3 + |body|
    ensures SplitDocument(raw).Ok? && |SplitDocument(raw).value.body| > |body|
  {
    IndexOfFirst(raw, CLOSE, |DELIMITER| + 1);
    hide IndexOf, OccursAt;
  }

  lemma DelimiterLine(fm: AtlasFrontmatter, key: string) returns (i: nat)
    requires fm.extras.Valid() && key in fm.extras.vals && StartsWith(key, DELIMITER)
    ensures 0 < i < |HeadLines(fm)| && StartsWith(HeadLines(fm)[i], DELIMITER)
  {
    var j: nat :| j < |fm.extras.keys| && fm.extras.keys[j] == key;
    ExtraLineAt(fm.extras.keys, fm.extras.vals, j);
    var line := ScalarLine(key, fm.extras.vals[key]);
    assert line == key + (": " + fm.extras.vals[key]);
    assert StartsWith(line, DELIMITER);
    hide ScalarLine, StartsWith, ExtraLines, SourceLines;
    i := 5 + j;
    assert HeadLines(fm)[i] == line;
  }

  lemma DelimiterKeyIsLost(fm: AtlasFrontmatter, body: string, key: string)
    requires fm.extras.Valid() && key in fm.extras.vals && StartsWith(key, DELIMITER)
    ensures Parsed(Written(fm, body)) != Ok((fm, body))
  {
    var i := DelimiterLine(fm, key);
    var lines, raw := HeadLines(fm), Written(fm, body);
    var head, p := Join(lines, "\n"), |Join(lines[..i], "\n")|;
    assert raw == DELIMITER + "\n" + head + CLOSE + "\n\n" + body;
    hide *;
    BreakBefore(lines, i);
    ClosedTooEarly(head, p, body);
    BodyDiffers(raw, fm, body);
  }

  lemma ClosedTooEarly(head: string, p: nat, body: string)
    requires OccursAt(head, CLOSE, p)
    ensures var raw := DELIMITER + "\n" + head + CLOSE + "\n\n" + body;
            SplitDocument(raw).Ok? && |SplitDocument(raw).value.body| > |body|
  {
    hide *;
    var raw := DELIMITER + "\n" + head + CLOSE + "\n\n" + body;
    OccursEarly(head, p);
    DocumentSlices(head, body);
    OccursWithin(DELIMITER + "\n", head, CLOSE + "\n\n" + body, p);
    assert DELIMITER + "\n" + head + (CLOSE + "\n\n" + body) == raw;
    EarlyClose(raw, |DELIMITER| + 1 + |head|, |DELIMITER| + 1 + p, body);
  }

  lemma BodyDiffers(raw: string, fm: AtlasFrontmatter, body: string)
    requires SplitDocument(raw).Ok? && |SplitDocument(raw).value.body| > |body|
    ensures Parsed(raw) != Ok((fm, body))
  {
    hide SplitDocument, Split, ParseLines, FrontmatterOf;
  }

  lemma OccursEarly(head: string, p: nat)
    requires OccursAt(head, CLOSE, p)
    ensures p < |head|
  {
  }

  lemma OccursWithin(front: string, s: string, back: string, p: nat)
    requires OccursAt(s, CLOSE, p)
    ensures OccursAt(front + s + back, CLOSE, |front| + p)
  {
    assert front + s + back == front + (s + back);
    assert OccursAt(s + back, CLOSE, p);
  }

  /** Exactly the clean heads survive being written and parsed, whatever the body. */
  lemma {:induction false} RoundTripIff(fm: AtlasFrontmatter, body: string)
    requires fm.extras.Valid()
    ensures Parsed(Written(fm, body)) == Ok((fm, body)) <==> IsClean(fm)
  {
    hide Parsed, Written, IsText, StartsWith;
    if IsClean(fm) { RoundTrip(fm, body); }
    if Parsed(Written(fm, body)) == Ok((fm, body)) {
      ParsedIsReadable(Written(fm, body));
      forall key | key in fm.extras.vals ensures !StartsWith(key, DELIMITER) {
        if StartsWith(key, DELIMITER) { DelimiterKeyIsLost(fm, body, key); }
      }
    }
  }
}
