/** Rendering a lifecycle record into an issue body and parsing it back. */
module IssueBody {
  import opened Wrappers
  import opened Str
  import opened IssueMarkers
  import opened LifecycleTypes

  const TABLE_HEADER := "| Kind | Pointer |"
  const TABLE_SEPARATOR := "| --- | --- |"

  datatype Parsed = Parsed(state: Option<LifecycleState>, artifacts: Option<Artifacts>)

  // ----- printers -----

  function RenderState(state: LifecycleState): string {
    "state: " + StateName(state)
  }

  function RenderRow(kind: ArtifactKind, pointer: string): string {
    "| " + KindName(kind) + " | " + pointer + " |"
  }

  function RowsOf(kind: ArtifactKind, pointers: seq<string>): seq<string> {
    if pointers == [] then [] else [RenderRow(kind, pointers[0])] + RowsOf(kind, pointers[1..])
  }

  function TableLines(a: Artifacts): seq<string> {
    [TABLE_HEADER, TABLE_SEPARATOR] + RowsOf(Design, a.design) + RowsOf(Plan, a.plan)
    + RowsOf(Ledger, a.ledger) + RowsOf(Commit, a.commit) + RowsOf(Pr, a.pr) + RowsOf(Worktree, a.worktree)
  }

  function RenderArtifacts(a: Artifacts): string {
    Join(TableLines(a), "\n")
  }

  function ChecklistLines(candidates: seq<LifecycleState>, state: LifecycleState): seq<string> {
    if candidates == [] then []
    else
      ["- [" + (if candidates[0] == state then "x" else " ") + "] " + StateName(candidates[0])]
      + ChecklistLines(candidates[1..], state)
  }

  function RenderChecklist(state: LifecycleState): string {
    Join(ChecklistLines(LIFECYCLE_STATES, state), "\n")
  }

  function Rendered(state: LifecycleState, artifacts: Artifacts, original: Option<string>): string {
    var body := if original == None then "" else original.value;
    var withState := ReplaceBetween(body, STATE_BEGIN, STATE_END, RenderState(state));
    var withArtifacts := ReplaceBetween(withState, ARTIFACTS_BEGIN, ARTIFACTS_END, RenderArtifacts(artifacts));
    ReplaceBetween(withArtifacts, CHECKLIST_BEGIN, CHECKLIST_END, RenderChecklist(state))
  }

  method RenderIssueBody(state: LifecycleState, artifacts: Artifacts, original: Option<string>) returns (body: string)
    ensures body == Rendered(state, artifacts, original)
  {
    body := if original == None then "" else original.value;
    body := ReplaceBetween(body, STATE_BEGIN, STATE_END, RenderState(state));
    body := ReplaceBetween(body, ARTIFACTS_BEGIN, ARTIFACTS_END, RenderArtifacts(artifacts));
    body := ReplaceBetween(body, CHECKLIST_BEGIN, CHECKLIST_END, RenderChecklist(state));
  }

  // ----- parsers -----

  function LowerAscii(c: char): char {
    if 'A' <= c <= 'Z' then c - 'A' + 'a' else c
  }

  predicate HasStatePrefix(s: string) {
    |s| >= 6 && forall i :: 0 <= i < 6 ==> LowerAscii(s[i]) == "state:"[i]
  }

  function ParseState(content: Option<string>): Option<LifecycleState> {
    if content == None then None
    else
      var text := if HasStatePrefix(content.value) then TrimStart(content.value[6..]) else content.value;
      StateNamed(Trim(text))
  }

  function ParseArtifactRow(line: string): Option<(ArtifactKind, string)> {
    var trimmed := Trim(line);
    if !StartsWith(trimmed, "|") || !EndsWith(trimmed, "|") then None
    else
      var cells := Split(if |trimmed| < 2 then "" else trimmed[1..|trimmed| - 1], '|');
      var kind := Trim(cells[0]);
      var pointer := if |cells| > 1 then Trim(cells[1]) else "";
      if kind == "" || pointer == "" || KindNamed(kind) == None then None
      else Some((KindNamed(kind).value, pointer))
  }

  /** The pointers of one kind in the order of their rows. */
  function PointersIn(lines: seq<string>, kind: ArtifactKind): seq<string> {
    if lines == [] then []
    else
      var row := ParseArtifactRow(lines[|lines| - 1]);
      PointersIn(lines[..|lines| - 1], kind)
      + if row.Some? && row.value.0 == kind then [row.value.1] else []
  }

  function ArtifactsIn(lines: seq<string>): Artifacts {
    Artifacts(PointersIn(lines, Design), PointersIn(lines, Plan), PointersIn(lines, Ledger),
              PointersIn(lines, Commit), PointersIn(lines, Pr), PointersIn(lines, Worktree))
  }

  lemma NoRows()
    ensures ArtifactsIn([]) == NO_ARTIFACTS
  {
  }

  lemma ArtifactsSnoc(lines: seq<string>, line: string)
    ensures ArtifactsIn(lines + [line])
            == var row := ParseArtifactRow(line);
               if row == None then ArtifactsIn(lines) else ArtifactsIn(lines).Push(row.value.0, row.value.1)
  {
    hide ParseArtifactRow;
    assert (lines + [line])[..|lines|] == lines;
  }

  method ParseArtifacts(content: Option<string>) returns (artifacts: Option<Artifacts>)
    ensures content == None ==> artifacts == None
    ensures content.Some? ==> artifacts == Some(ArtifactsIn(Split(content.value, '\n')))
  {
    if content == None { return None; }
    NoRows();
    hide *;
    var lines := Split(content.value, '\n');
    var pushed := NO_ARTIFACTS;
    assert lines[..0] == [];
    for i := 0 to |lines|
      invariant pushed == ArtifactsIn(lines[..i])
    {
      NextRow(lines, i);
      var row := ParseArtifactRow(lines[i]);
      if row != None {
        pushed := pushed.Push(row.value.0, row.value.1);
      }
    }
    assert lines[..|lines|] == lines;
    artifacts := Some(pushed);
  }

  lemma NextRow(lines: seq<string>, i: nat)
    requires i < |lines|
    ensures ArtifactsIn(lines[..i + 1])
            == var row := ParseArtifactRow(lines[i]);
               if row == None then ArtifactsIn(lines[..i])
               else ArtifactsIn(lines[..i]).Push(row.value.0, row.value.1)
  {
    hide *;
    assert lines[..i + 1] == lines[..i] + [lines[i]];
    ArtifactsSnoc(lines[..i], lines[i]);
  }

  /** A state is read, with or without the prefix in capital or small letters, exactly if the trimmed rest is its
      name. */
  lemma StateReadsIff(content: string, s: LifecycleState)
    ensures var prefixed := |content| >= 6 && forall i :: 0 <= i < 6 ==>
                              content[i] == "state:"[i] || content[i] == "STATE:"[i];
            ParseState(Some(content)) == Some(s)
            <==> Trim(if prefixed then content[6..] else content) == StateName(s)
  {
    PrefixIff(content);
    if |content| >= 6 { TrimOfTrimStart(content[6..]); }
    hide Trim, StateName, StateNamed, TrimStart, HasStatePrefix;
    if |content| >= 6 { NamedIff(Trim(TrimStart(content[6..])), s, Design); }
    NamedIff(Trim(content), s, Design);
  }

  lemma PrefixIff(content: string)
    ensures HasStatePrefix(content) <==>
              |content| >= 6 && forall i :: 0 <= i < 6 ==> content[i] == "state:"[i] || content[i] == "STATE:"[i]
  {
    if |content| >= 6 {
      forall i | 0 <= i < 6
        ensures LowerAscii(content[i]) == "state:"[i] <==> content[i] == "state:"[i] || content[i] == "STATE:"[i]
      {
        LowerIff(content[i], i);
      }
    }
  }

  lemma LowerIff(c: char, i: nat)
    requires i < 6
    ensures LowerAscii(c) == "state:"[i] <==> c == "state:"[i] || c == "STATE:"[i]
  {
    assert "state:"[i] == if i == 0 then 's' else if i == 1 then 't' else if i == 2 then 'a'
                          else if i == 3 then 't' else if i == 4 then 'e' else ':';
    assert "STATE:"[i] == if i == 0 then 'S' else if i == 1 then 'T' else if i == 2 then 'A'
                          else if i == 3 then 'T' else if i == 4 then 'E' else ':';
  }

  lemma TrimOfTrimStart(s: string)
    ensures Trim(TrimStart(s)) == Trim(s)
  {
    var head := TrimStartSplit(s);
    hide Trim, TrimStart;
    TrimPadded(head, TrimStart(s), "");
    assert head + TrimStart(s) + "" == s;
  }

  /** A line is a row exactly if, trimmed, it is two cells or more between bars, the first of them the name of a kind
      and the second not blank; further cells do not matter. */
  lemma RowReadsIff(line: string, k: ArtifactKind, pointer: string)
    ensures ParseArtifactRow(line) == Some((k, pointer)) <==>
            exists a: string, b: string, rest: string ::
              && Trim(line) == "|" + a + "|" + b + rest && '|' !in a && '|' !in b
              && StartsWith(rest, "|") && EndsWith(rest, "|")
              && Trim(a) == KindName(k) && Trim(b) == pointer && pointer != ""
  {
    if ParseArtifactRow(line) == Some((k, pointer)) { RowHasCells(line, k, pointer); }
    if a: string, b: string, rest: string :|
         && Trim(line) == "|" + a + "|" + b + rest && '|' !in a && '|' !in b
         && StartsWith(rest, "|") && EndsWith(rest, "|")
         && Trim(a) == KindName(k) && Trim(b) == pointer && pointer != ""
    {
      CellsMakeRow(line, a, b, rest, k, pointer);
    }
  }

  /** A row by the cells between its outer bars. */
  lemma RowOfInner(line: string, inner: string, k: ArtifactKind, pointer: string)
    requires Trim(line) == "|" + inner + "|"
    ensures ParseArtifactRow(line) == Some((k, pointer)) <==>
            var cells := Split(inner, '|');
            |cells| > 1 && Trim(cells[0]) == KindName(k) && Trim(cells[1]) == pointer && pointer != ""
  {
    var trimmed := Trim(line);
    assert KindName(k) != "";
    hide Trim, Split, KindName, KindNamed;
    assert trimmed[..1] == "|" && trimmed[|trimmed| - 1..] == "|" && trimmed[1..|trimmed| - 1] == inner;
    NamedIff(Trim(Split(inner, '|')[0]), Proposed, k);
  }

  lemma RowIsBarred(line: string)
    requires ParseArtifactRow(line).Some?
    ensures |Trim(line)| >= 2 && Trim(line) == "|" + Trim(line)[1..|Trim(line)| - 1] + "|"
  {
    var trimmed := Trim(line);
    assert Trim("") == "";
    SplitNone("", '|');
    if |trimmed| >= 2 {
      hide Trim, Split, KindNamed;
      assert trimmed[..1] == "|" && trimmed[|trimmed| - 1..] == "|";
    }
  }

  lemma RowHasCells(line: string, k: ArtifactKind, pointer: string)
    requires ParseArtifactRow(line) == Some((k, pointer))
    ensures exists a: string, b: string, rest: string ::
              && Trim(line) == "|" + a + "|" + b + rest && '|' !in a && '|' !in b
              && StartsWith(rest, "|") && EndsWith(rest, "|")
              && Trim(a) == KindName(k) && Trim(b) == pointer && pointer != ""
  {
    RowIsBarred(line);
    var inner := Trim(line)[1..|Trim(line)| - 1];
    hide *;
    RowOfInner(line, inner, k, pointer);
    var a, b, rest := TwoCells(inner);
    assert Trim(a) == KindName(k) && Trim(b) == pointer && pointer != "";
  }

  /** Two cells or more, taken apart. */
  lemma TwoCells(inner: string) returns (a: string, b: string, rest: string)
    requires |Split(inner, '|')| > 1
    ensures a == Split(inner, '|')[0] && b == Split(inner, '|')[1] && '|' !in a && '|' !in b
    ensures "|" + inner + "|" == "|" + a + "|" + b + rest && StartsWith(rest, "|") && EndsWith(rest, "|")
  {
    hide Split, Join;
    var cells := Split(inner, '|');
    JoinSplit(inner, '|');
    a, b := cells[0], cells[1];
    var more := cells[2..];
    JoinCons(a, cells[1..], "|");
    JoinCons(b, more, "|");
    assert [a] + cells[1..] == cells && [b] + more == cells[1..];
    var between := if more == [] then "" else "|" + Join(more, "|");
    rest := between + "|";
    assert inner == a + ("|" + (b + between));
    assert rest[..1] == "|" && rest[|rest| - 1..] == "|";
  }

  lemma CellsMakeRow(line: string, a: string, b: string, rest: string, k: ArtifactKind, pointer: string)
    requires Trim(line) == "|" + a + "|" + b + rest && '|' !in a && '|' !in b
    requires StartsWith(rest, "|") && EndsWith(rest, "|")
    requires Trim(a) == KindName(k) && Trim(b) == pointer && pointer != ""
    ensures ParseArtifactRow(line) == Some((k, pointer))
  {
    SplitNone(a, '|');
    SplitNone(b, '|');
    hide Trim, Split, KindName, KindNamed, ParseArtifactRow;
    var tail := rest[..|rest| - 1];
    assert rest == tail + "|" && rest[0] == '|';
    var inner := a + ['|'] + (b + tail);
    assert Trim(line) == "|" + inner + "|";
    SplitAt(a, '|', b + tail);
    if tail == "" {
      assert b + tail == b;
    } else {
      assert b + tail == b + ['|'] + tail[1..];
      SplitAt(b, '|', tail[1..]);
    }
    RowOfInner(line, inner, k, pointer);
  }

  function ParsedBody(body: string): Parsed {
    var table := ExtractBetween(body, ARTIFACTS_BEGIN, ARTIFACTS_END);
    Parsed(ParseState(ExtractBetween(body, STATE_BEGIN, STATE_END)),
           if table == None then None else Some(ArtifactsIn(Split(table.value, '\n'))))
  }

  method ParseIssueBody(body: string) returns (parsed: Parsed)
    ensures parsed == ParsedBody(body)
  {
    var artifacts := ParseArtifacts(ExtractBetween(body, ARTIFACTS_BEGIN, ARTIFACTS_END));
    parsed := Parsed(ParseState(ExtractBetween(body, STATE_BEGIN, STATE_END)), artifacts);
  }

  // ----- one row -----

  lemma {:induction false} FirstCell(s: string)
    ensures '|' !in s ==> Split(s, '|') == [s]
    ensures '|' in s ==> Split(s, '|')[0] < s
  {
    if '|' in s { FirstCellShorter(s); } else { SplitNone(s, '|'); }
  }

  lemma {:induction false} FirstCellShorter(s: string)
    requires '|' in s
    ensures Split(s, '|')[0] < s
  {
    if s[0] != '|' {
      FirstCellShorter(s[1..]);
      assert s == [s[0]] + s[1..];
    }
  }

  lemma KindNameIsPlain(kind: ArtifactKind)
    ensures KindName(kind) != "" && Trimmed(KindName(kind))
    ensures forall i :: 0 <= i < |KindName(kind)| ==>
              KindName(kind)[i] != '|' && KindName(kind)[i] != '\n' &&
              KindName(kind)[i] != '<' && KindName(kind)[i] != '>'
  {
  }

  lemma TrimId(s: string)
    requires Trimmed(s)
    ensures Trim(s) == s
  {
  }

  lemma TrimShorter(s: string)
    ensures |Trim(s)| <= |s|
    ensures Trim(s) == s ==> Trimmed(s)
  {
    var head, tail := TrimSplit(s);
    TrimIsTrimmed(s);
  }

  /** The cells of a printed row: the kind, and the pointer up to its first bar. */
  lemma {:induction false} CellsOfRow(kind: ArtifactKind, pointer: string)
    ensures ParseArtifactRow(RenderRow(kind, pointer))
            == var cell := Trim(Split(" " + pointer + " ", '|')[0]);
               if cell == "" then None else Some((kind, cell))
  {
    hide KindName, KindNamed, Trim, Split;
    var line := RenderRow(kind, pointer);
    var k := KindName(kind);
    KindNameIsPlain(kind);
    KindRoundTrip(kind);
    assert line[0] == '|' && line[|line| - 1] == '|';
    TrimId(line);
    assert line[1..|line| - 1] == (" " + k + " ") + ['|'] + (" " + pointer + " ");
    SplitAt(" " + k + " ", '|', " " + pointer + " ");
    SplitNone(" " + k + " ", '|');
    TrimPadded(" ", k, " ");
    TrimId(k);
  }

  /** A row is read back exactly when its pointer is trimmed, not empty and free of bars. */
  lemma {:induction false} RowRoundTrip(kind: ArtifactKind, pointer: string)
    ensures ParseArtifactRow(RenderRow(kind, pointer)) == Some((kind, pointer))
            <==> pointer != "" && Trimmed(pointer) && '|' !in pointer
  {
    CellsOfRow(kind, pointer);
    var padded := " " + pointer + " ";
    FirstCell(padded);
    TrimPadded(" ", pointer, " ");
    TrimShorter(pointer);
    if '|' in pointer {
      var cell := Split(padded, '|')[0];
      assert padded[1 + |pointer|] == ' ';
      BarInPadded(pointer);
      TrimPadded(" ", cell[1..], "");
      assert cell == " " + cell[1..] + "";
      TrimShorter(cell[1..]);
    } else {
      assert '|' !in padded;
      if Trimmed(pointer) { TrimId(pointer); }
    }
  }

  lemma BarInPadded(pointer: string)
    requires '|' in pointer
    ensures var cell := Split(" " + pointer + " ", '|')[0]; cell != "" && cell[0] == ' ' && |cell| - 1 < |pointer|
  {
    var s := pointer + " ";
    assert " " + pointer + " " == [' '] + s;
    assert ([' '] + s)[1..] == s;
    BarInPrefix(pointer, " ");
  }

  lemma {:induction false} BarInPrefix(p: string, tail: string)
    requires '|' in p
    ensures |Split(p + tail, '|')[0]| < |p|
  {
    assert (p + tail)[1..] == p[1..] + tail;
    if p[0] != '|' {
      assert p == [p[0]] + p[1..];
      BarInPrefix(p[1..], tail);
    }
  }

  // ----- the table -----

  /** A pointer the table can carry. */
  ghost predicate GoodPointer(p: string) {
    && p != "" && Trimmed(p) && '|' !in p && '\n' !in p
    && forall m :: m in MARKERS ==> !Occurs(p, m)
  }

  ghost predicate GoodArtifacts(a: Artifacts) {
    forall k: ArtifactKind, i :: 0 <= i < |a.Get(k)| ==> GoodPointer(a.Get(k)[i])
  }

  ghost predicate GoodPointers(ps: seq<string>) {
    forall i :: 0 <= i < |ps| ==> GoodPointer(ps[i])
  }

  /** A line of the table: on one line, between bars, without a marker. */
  ghost predicate TableLine(line: string) {
    && |line| >= 2 && line[0] == '|' && line[|line| - 1] == '|' && '\n' !in line
    && forall m :: m in MARKERS ==> !Occurs(line, m)
  }

  ghost predicate AllTableLines(lines: seq<string>) {
    forall i :: 0 <= i < |lines| ==> TableLine(lines[i])
  }

  lemma NoAngleNoMarker(s: string, m: string)
    requires IsMarker(m) && '<' !in s
    ensures !Occurs(s, m)
  {
    assert forall i :: 0 <= i < |s| ==> s[i] != '<';
    forall k ensures !OccursAt(s, m, k) {
      OccursStart(s, m, k);
    }
  }

  lemma OccursStart(s: string, m: string, k: int)
    requires m != ""
    ensures OccursAt(s, m, k) ==> s[k] == m[0] && s[k + |m| - 1] == m[|m| - 1]
  {
    if OccursAt(s, m, k) {
      assert s[k + 0] == m[0] && s[k + (|m| - 1)] == m[|m| - 1];
    }
  }

  lemma MarkerInRow(kind: ArtifactKind, pointer: string, m: string, k: int)
    requires IsMarker(m)
    ensures OccursAt(RenderRow(kind, pointer), m, k) ==> OccursAt(pointer, m, k - |KindName(kind)| - 5)
  {
    hide KindName;
    KindNameIsPlain(kind);
    var head := "| " + KindName(kind) + " | ";
    var line := RenderRow(kind, pointer);
    assert line == head + pointer + " |";
    OccursStart(line, m, k);
    assert forall j :: 0 <= j < |head| ==> line[j] == head[j] && head[j] != '<';
  }

  lemma RowHasNoMarker(kind: ArtifactKind, pointer: string, m: string)
    requires IsMarker(m) && !Occurs(pointer, m)
    ensures !Occurs(RenderRow(kind, pointer), m)
  {
    hide OccursAt, RenderRow;
    forall k ensures !OccursAt(RenderRow(kind, pointer), m, k) { MarkerInRow(kind, pointer, m, k); }
  }

  lemma RowIsTableLine(kind: ArtifactKind, pointer: string)
    requires GoodPointer(pointer)
    ensures TableLine(RenderRow(kind, pointer))
  {
    KindNameIsPlain(kind);
    MarkersAreMarkers();
    forall m | m in MARKERS ensures !Occurs(RenderRow(kind, pointer), m) {
      RowHasNoMarker(kind, pointer, m);
    }
  }

  lemma {:induction false} RowsAreTableLines(kind: ArtifactKind, ps: seq<string>)
    requires GoodPointers(ps)
    ensures AllTableLines(RowsOf(kind, ps))
  {
    if ps != [] {
      RowIsTableLine(kind, ps[0]);
      RowsAreTableLines(kind, ps[1..]);
    }
  }

  lemma HeadingIsTable()
    ensures TableLine(TABLE_HEADER) && TableLine(TABLE_SEPARATOR)
    ensures ParseArtifactRow(TABLE_HEADER) == None && ParseArtifactRow(TABLE_SEPARATOR) == None
  {
    hide ParseArtifactRow, IsMarker, Occurs;
    MarkersAreMarkers();
    forall m | m in MARKERS ensures !Occurs(TABLE_HEADER, m) && !Occurs(TABLE_SEPARATOR, m) {
      NoAngleNoMarker(TABLE_HEADER, m);
      NoAngleNoMarker(TABLE_SEPARATOR, m);
    }
    HeadingCells("Kind", "Pointer");
    HeadingCells("---", "---");
    assert TABLE_HEADER == "| " + "Kind" + " | " + "Pointer" + " |";
    assert TABLE_SEPARATOR == "| " + "---" + " | " + "---" + " |";
    NotAKind("Kind");
    NotAKind("---");
  }

  lemma HeadingCells(first: string, second: string)
    requires first != "" && Trimmed(first) && '|' !in first
    requires forall k :: KindName(k) != first
    ensures ParseArtifactRow("| " + first + " | " + second + " |") == None
  {
    hide KindAmong, Trim, Split;
    var line := "| " + first + " | " + second + " |";
    assert line[0] == '|' && line[|line| - 1] == '|';
    TrimId(line);
    assert line[1..|line| - 1] == (" " + first + " ") + ['|'] + (" " + second + " ");
    SplitAt(" " + first + " ", '|', " " + second + " ");
    SplitNone(" " + first + " ", '|');
    TrimPadded(" ", first, " ");
    TrimId(first);
    NotNamed(first, ARTIFACT_KINDS);
  }

  lemma NotAKind(name: string)
    requires name == "Kind" || name == "---"
    ensures forall k :: KindName(k) != name
  {
    forall k ensures KindName(k) != name {
      assert KindName(k)[0] != name[0];
    }
  }

  lemma {:induction false} NotNamed(name: string, kinds: seq<ArtifactKind>)
    requires forall k :: KindName(k) != name
    ensures KindAmong(name, kinds) == None
  {
    hide KindName;
    if kinds != [] { NotNamed(name, kinds[1..]); }
  }

  lemma {:induction false} PointersInConcat(a: seq<string>, b: seq<string>, kind: ArtifactKind)
    ensures PointersIn(a + b, kind) == PointersIn(a, kind) + PointersIn(b, kind)
  {
    hide ParseArtifactRow;
    if b == [] {
      assert a + b == a;
    } else {
      assert (a + b)[..|a + b| - 1] == a + b[..|b| - 1];
      PointersInConcat(a, b[..|b| - 1], kind);
    }
  }

  lemma {:induction false} PointersInRows(printed: ArtifactKind, ps: seq<string>, kind: ArtifactKind)
    requires GoodPointers(ps)
    ensures PointersIn(RowsOf(printed, ps), kind) == if kind == printed then ps else []
  {
    hide ParseArtifactRow;
    if ps != [] {
      var row := RenderRow(printed, ps[0]);
      RowRoundTrip(printed, ps[0]);
      PointersInConcat([row], RowsOf(printed, ps[1..]), kind);
      assert [row][..0] == [];
      PointersInRows(printed, ps[1..], kind);
    }
  }

  lemma PointersInTable(a: Artifacts, kind: ArtifactKind)
    requires GoodArtifacts(a)
    ensures PointersIn(TableLines(a), kind) == a.Get(kind)
  {
    hide ParseArtifactRow, PointersIn, RowsOf, GoodPointer;
    KindsAreGood(a);
    HeadingIsTable();
    var t0 := [TABLE_HEADER, TABLE_SEPARATOR];
    assert PointersIn(t0, kind) == [] by { HeadingHasNoPointers(kind); }
    var t1 := t0 + RowsOf(Design, a.design);
    var t2 := t1 + RowsOf(Plan, a.plan);
    var t3 := t2 + RowsOf(Ledger, a.ledger);
    var t4 := t3 + RowsOf(Commit, a.commit);
    var t5 := t4 + RowsOf(Pr, a.pr);
    PointersInConcat(t0, RowsOf(Design, a.design), kind);
    PointersInConcat(t1, RowsOf(Plan, a.plan), kind);
    PointersInConcat(t2, RowsOf(Ledger, a.ledger), kind);
    PointersInConcat(t3, RowsOf(Commit, a.commit), kind);
    PointersInConcat(t4, RowsOf(Pr, a.pr), kind);
    PointersInConcat(t5, RowsOf(Worktree, a.worktree), kind);
    PointersInRows(Design, a.design, kind);
    PointersInRows(Plan, a.plan, kind);
    PointersInRows(Ledger, a.ledger, kind);
    PointersInRows(Commit, a.commit, kind);
    PointersInRows(Pr, a.pr, kind);
    PointersInRows(Worktree, a.worktree, kind);
  }

  lemma HeadingHasNoPointers(kind: ArtifactKind)
    ensures PointersIn([TABLE_HEADER, TABLE_SEPARATOR], kind) == []
  {
    hide ParseArtifactRow;
    HeadingIsTable();
    PointersInConcat([TABLE_HEADER], [TABLE_SEPARATOR], kind);
    assert [TABLE_HEADER][..0] == [] && [TABLE_SEPARATOR][..0] == [];
    assert [TABLE_HEADER] + [TABLE_SEPARATOR] == [TABLE_HEADER, TABLE_SEPARATOR];
  }

  lemma KindsAreGood(a: Artifacts)
    requires GoodArtifacts(a)
    ensures GoodPointers(a.design) && GoodPointers(a.plan) && GoodPointers(a.ledger)
    ensures GoodPointers(a.commit) && GoodPointers(a.pr) && GoodPointers(a.worktree)
  {
    hide GoodPointer;
    forall k: ArtifactKind ensures GoodPointers(a.Get(k)) {
    }
    assert a.Get(Design) == a.design && a.Get(Plan) == a.plan && a.Get(Ledger) == a.ledger;
    assert a.Get(Commit) == a.commit && a.Get(Pr) == a.pr && a.Get(Worktree) == a.worktree;
  }

  lemma TableIsLines(a: Artifacts)
    requires GoodArtifacts(a)
    ensures AllTableLines(TableLines(a))
  {
    hide TableLine, RowsOf, GoodPointer;
    KindsAreGood(a);
    HeadingIsTable();
    RowsAreTableLines(Design, a.design);
    RowsAreTableLines(Plan, a.plan);
    RowsAreTableLines(Ledger, a.ledger);
    RowsAreTableLines(Commit, a.commit);
    RowsAreTableLines(Pr, a.pr);
    RowsAreTableLines(Worktree, a.worktree);
  }

  /** Lines between bars, joined: trimmed, and no marker reaches over a line break. */
  lemma {:induction false} JoinedTable(lines: seq<string>)
    requires lines != [] && AllTableLines(lines)
    ensures var t := Join(lines, "\n");
            |t| >= 2 && t[0] == '|' && t[|t| - 1] == '|' && (forall m :: m in MARKERS ==> !Occurs(t, m))
  {
    assert TableLine(lines[0]);
    if |lines| > 1 {
      JoinedTable(lines[1..]);
      var rest := Join(lines[1..], "\n");
      MarkersAreMarkers();
      forall m | m in MARKERS ensures !Occurs(lines[0] + "\n" + rest, m) {
        JoinedHasNoMarker(lines[0], rest, m);
      }
    }
  }

  lemma JoinedHasNoMarker(x: string, y: string, m: string)
    requires IsMarker(m) && !Occurs(x, m) && !Occurs(y, m)
    ensures !Occurs(x + "\n" + y, m)
  {
    forall k ensures !OccursAt(x + "\n" + y, m, k) {
      OccursConcat(x + "\n", y, m, k);
      OccursConcat(x, "\n", m, k);
    }
  }

  lemma {:induction false} TableRoundTrip(a: Artifacts)
    requires GoodArtifacts(a)
    ensures Trim(RenderArtifacts(a)) == RenderArtifacts(a)
    ensures ArtifactsIn(Split(RenderArtifacts(a), '\n')) == a
    ensures forall m :: m in MARKERS ==> !Occurs(RenderArtifacts(a), m)
  {
    hide PointersIn, RowsOf, GoodPointer, Split, Occurs, GoodArtifacts;
    TableIsLines(a);
    JoinedTable(TableLines(a));
    TrimId(RenderArtifacts(a));
    SplitJoin(TableLines(a), '\n');
    forall k ensures PointersIn(TableLines(a), k) == a.Get(k) { PointersInTable(a, k); }
    assert a.Get(Design) == a.design && a.Get(Plan) == a.plan && a.Get(Ledger) == a.ledger;
    assert a.Get(Commit) == a.commit && a.Get(Pr) == a.pr && a.Get(Worktree) == a.worktree;
  }

  // ----- state and checklist -----

  lemma StateNameIsPlain(s: LifecycleState)
    ensures StateName(s) != "" && Trimmed(StateName(s)) && '<' !in StateName(s)
  {
  }

  lemma StateTextRoundTrip(s: LifecycleState)
    ensures Trim(RenderState(s)) == RenderState(s)
    ensures ParseState(Some(RenderState(s))) == Some(s)
    ensures forall m :: m in MARKERS ==> !Occurs(RenderState(s), m)
  {
    hide StateName, StateNamed, Occurs;
    StateNameIsPlain(s);
    StateRoundTrip(s);
    var text := RenderState(s);
    TrimId(text);
    assert HasStatePrefix(text);
    assert text[6..] == " " + StateName(s);
    TrimStartPadded(" ", StateName(s));
    TrimId(StateName(s));
    MarkersAreMarkers();
    forall m | m in MARKERS ensures !Occurs(text, m) { NoAngleNoMarker(text, m); }
  }

  lemma {:induction false} ChecklistHasNoAngle(candidates: seq<LifecycleState>, s: LifecycleState)
    ensures '<' !in Join(ChecklistLines(candidates, s), "\n")
  {
    hide StateName;
    if candidates != [] {
      StateNameIsPlain(candidates[0]);
      ChecklistHasNoAngle(candidates[1..], s);
    }
  }

  lemma ChecklistHasNoMarker(s: LifecycleState)
    ensures forall m :: m in MARKERS ==> !Occurs(RenderChecklist(s), m)
  {
    hide ChecklistLines;
    MarkersAreMarkers();
    ChecklistHasNoAngle(LIFECYCLE_STATES, s);
    forall m | m in MARKERS ensures !Occurs(RenderChecklist(s), m) { NoAngleNoMarker(RenderChecklist(s), m); }
  }

  // ----- the whole body -----

  ghost predicate Clean(body: string) {
    && PairOk(body, STATE_BEGIN, STATE_END, MARKERS)
    && PairOk(body, ARTIFACTS_BEGIN, ARTIFACTS_END, MARKERS)
    && PairOk(body, CHECKLIST_BEGIN, CHECKLIST_END, MARKERS)
  }

  ghost predicate Holds(body: string, begin: string, end: string, r: string) {
    Inner(body, begin, end) == Some("\n" + r + "\n")
  }

  lemma {:induction false} ChecklistLinesAre(candidates: seq<LifecycleState>, s: LifecycleState)
    ensures |ChecklistLines(candidates, s)| == |candidates|
    ensures forall i :: 0 <= i < |candidates| ==>
              ChecklistLines(candidates, s)[i]
              == (if candidates[i] == s then "- [x] " else "- [ ] ") + StateName(candidates[i])
              && '\n' !in ChecklistLines(candidates, s)[i]
  {
    hide StateName;
    if candidates != [] {
      NameHasNoBreak(candidates[0]);
      ChecklistLinesAre(candidates[1..], s);
      assert "- [" + "x" + "] " == "- [x] " && "- [" + " " + "] " == "- [ ] ";
    }
  }

  lemma NameHasNoBreak(s: LifecycleState)
    ensures '\n' !in StateName(s)
  {
  }

  /** The checklist has a line for every state, in order, and ticks the one it is in and no other. */
  lemma ChecklistTicks(s: LifecycleState)
    ensures var lines := Split(RenderChecklist(s), '\n');
            && |lines| == |LIFECYCLE_STATES|
            && forall i :: 0 <= i < |LIFECYCLE_STATES| ==>
                 lines[i] == (if LIFECYCLE_STATES[i] == s then "- [x] " else "- [ ] ") + StateName(LIFECYCLE_STATES[i])
  {
    hide StateName, ChecklistLines;
    var lines := ChecklistLines(LIFECYCLE_STATES, s);
    ChecklistLinesAre(LIFECYCLE_STATES, s);
    SplitJoin(lines, '\n');
  }

  lemma MarkersDiffer()
    ensures |{STATE_BEGIN, STATE_END, ARTIFACTS_BEGIN, ARTIFACTS_END, CHECKLIST_BEGIN, CHECKLIST_END}| == 6
    ensures {STATE_BEGIN, STATE_END} !! {ARTIFACTS_BEGIN, ARTIFACTS_END}
    ensures {STATE_BEGIN, STATE_END} !! {CHECKLIST_BEGIN, CHECKLIST_END}
    ensures {ARTIFACTS_BEGIN, ARTIFACTS_END} !! {CHECKLIST_BEGIN, CHECKLIST_END}
    ensures STATE_BEGIN != STATE_END && ARTIFACTS_BEGIN != ARTIFACTS_END && CHECKLIST_BEGIN != CHECKLIST_END
  {
    assert |STATE_BEGIN| == 37 && |STATE_END| == 35;
    assert |ARTIFACTS_BEGIN| == 41 && |ARTIFACTS_END| == 39;
    assert |CHECKLIST_BEGIN| == 41 && |CHECKLIST_END| == 39;
    assert ARTIFACTS_BEGIN[22] == 'a' && CHECKLIST_BEGIN[22] == 'c';
    assert ARTIFACTS_END[22] == 'a' && CHECKLIST_END[22] == 'c';
  }

  /** After rendering, the three blocks hold the three texts and the body is still well formed. */
  lemma {:induction false} RenderedHolds(state: LifecycleState, a: Artifacts, original: Option<string>)
    requires GoodArtifacts(a) && Clean(if original == None then "" else original.value)
    ensures var body := Rendered(state, a, original);
            && Clean(body)
            && Holds(body, STATE_BEGIN, STATE_END, RenderState(state))
            && Holds(body, ARTIFACTS_BEGIN, ARTIFACTS_END, RenderArtifacts(a))
            && Holds(body, CHECKLIST_BEGIN, CHECKLIST_END, RenderChecklist(state))
  {
    hide GoodArtifacts, PairOk, ReplaceBetween, Occurs, RenderState, RenderArtifacts, RenderChecklist, Inner, IsMarker;
    MarkersAreMarkers();
    MarkersDiffer();
    StateTextRoundTrip(state);
    TableRoundTrip(a);
    ChecklistHasNoMarker(state);
    var b0 := if original == None then "" else original.value;
    var b1 := ReplaceBetween(b0, STATE_BEGIN, STATE_END, RenderState(state));
    var b2 := ReplaceBetween(b1, ARTIFACTS_BEGIN, ARTIFACTS_END, RenderArtifacts(a));
    ReplaceKeepsPairs(b0, STATE_BEGIN, STATE_END, RenderState(state), MARKERS);
    ReplaceKeepsPairs(b1, ARTIFACTS_BEGIN, ARTIFACTS_END, RenderArtifacts(a), MARKERS);
    ReplaceKeepsPairs(b2, CHECKLIST_BEGIN, CHECKLIST_END, RenderChecklist(state), MARKERS);
    ReplaceKeepsOthers(b1, ARTIFACTS_BEGIN, ARTIFACTS_END, RenderArtifacts(a), STATE_BEGIN, STATE_END, MARKERS);
    ReplaceKeepsOthers(b2, CHECKLIST_BEGIN, CHECKLIST_END, RenderChecklist(state), STATE_BEGIN, STATE_END, MARKERS);
    ReplaceKeepsOthers(b2, CHECKLIST_BEGIN, CHECKLIST_END, RenderChecklist(state),
                       ARTIFACTS_BEGIN, ARTIFACTS_END, MARKERS);
  }

  lemma ExtractOfHolds(body: string, begin: string, end: string, r: string)
    requires Holds(body, begin, end, r) && Trim(r) == r
    ensures ExtractBetween(body, begin, end) == Some(r)
  {
    hide IndexOf, Trim;
    TrimPadded("\n", r, "\n");
  }

  /** Parsing what was rendered gives back the state and every artifact list in order. */
  lemma {:induction false} ParseOfRendered(state: LifecycleState, a: Artifacts, original: Option<string>)
    requires GoodArtifacts(a) && Clean(if original == None then "" else original.value)
    ensures ParsedBody(Rendered(state, a, original)) == Parsed(Some(state), Some(a))
  {
    hide GoodArtifacts, Clean, Rendered, RenderState, RenderArtifacts, RenderChecklist, Trim, Split,
         ArtifactsIn, Holds, ParseState;
    RenderedHolds(state, a, original);
    StateTextRoundTrip(state);
    TableRoundTrip(a);
    var body := Rendered(state, a, original);
    ExtractOfHolds(body, STATE_BEGIN, STATE_END, RenderState(state));
    ExtractOfHolds(body, ARTIFACTS_BEGIN, ARTIFACTS_END, RenderArtifacts(a));
  }

  /** Rendering again changes nothing. */
  lemma {:induction false} RenderIdempotent(state: LifecycleState, a: Artifacts, original: Option<string>)
    requires GoodArtifacts(a) && Clean(if original == None then "" else original.value)
    ensures var body := Rendered(state, a, original); Rendered(state, a, Some(body)) == body
  {
    hide GoodArtifacts, Clean, RenderState, RenderArtifacts, RenderChecklist, ReplaceBetween, Inner;
    RenderedHolds(state, a, original);
    var body := Rendered(state, a, original);
    ReplaceSame(body, STATE_BEGIN, STATE_END, RenderState(state));
    ReplaceSame(body, ARTIFACTS_BEGIN, ARTIFACTS_END, RenderArtifacts(a));
    ReplaceSame(body, CHECKLIST_BEGIN, CHECKLIST_END, RenderChecklist(state));
  }
}
