/** The execution marker that a commit message carries: building it, and finding it in a text. */
module Markers {
  import opened Wrappers
  import opened Str

  const MAX_SAFE_INTEGER: nat := 0x1F_FFFF_FFFF_FFFF

  const COMMENT_OPEN := "<!--"
  const MARKER_NAME := "micode:lc"

  datatype ExecutionMarker = ExecutionMarker(
    issueNumber: nat, batchId: Option<string>, taskId: Option<string>, attempt: nat, seqNo: nat)

  // ----- building -----

  function TextField(key: string, value: Option<string>): seq<string> {
    if value == None then [] else [key + "=" + value.value]
  }

  function NumberField(key: string, value: nat): seq<string> {
    TextField(key, Some(NatToString(value)))
  }

  function Fields(m: ExecutionMarker): seq<string> {
    NumberField("issue", m.issueNumber) + TextField("batch", m.batchId) + TextField("task", m.taskId)
    + NumberField("attempt", m.attempt) + NumberField("seq", m.seqNo)
  }

  function BuildExecutionMarker(m: ExecutionMarker): string {
    COMMENT_OPEN + " " + MARKER_NAME + " " + Join(Fields(m), " ") + " -->"
  }

  // ----- finding the body: <!--, optional space, the name, space, then up to --> -----

  function MatchHere(text: string): Option<string> {
    var rest := Opening(text);
    if rest == None then None else BodyOf(rest.value)
  }

  /** What follows an opening of a marker at the start of the text. */
  function Opening(text: string): Option<string> {
    if !StartsWith(text, COMMENT_OPEN) then None
    else
      var named := TrimStart(text[|COMMENT_OPEN|..]);
      if !StartsWith(named, MARKER_NAME) then None
      else
        var spaced := named[|MARKER_NAME|..];
        if spaced == "" || !IsSpace(spaced[0]) then None else Some(TrimStart(spaced))
  }

  /** The body holds no >, so the first one has to close the comment. */
  function BodyOf(text: string): Option<string> {
    var close := IndexOf(text, ">", 0);
    if close == None || close.value < 2 || text[close.value - 1] != '-' || text[close.value - 2] != '-' then None
    else Some(TrimEnd(text[..close.value - 2]))
  }

  function FindBody(text: string): Option<string> {
    if MatchHere(text).Some? then MatchHere(text)
    else if text == "" then None
    else FindBody(text[1..])
  }

  // ----- reading the fields: word characters, =, and all up to the next space -----

  predicate IsWord(c: char) {
    'a' <= c <= 'z' || 'A' <= c <= 'Z' || '0' <= c <= '9' || c == '_'
  }

  function WordLength(s: string): (n: nat)
    ensures n <= |s|
  {
    if s != "" && IsWord(s[0]) then 1 + WordLength(s[1..]) else 0
  }

  function TokenLength(s: string): (n: nat)
    ensures n <= |s|
  {
    if s != "" && !IsSpace(s[0]) then 1 + TokenLength(s[1..]) else 0
  }

  predicate FieldStarts(s: string) {
    var n := WordLength(s);
    n > 0 && n + 1 < |s| && s[n] == '=' && !IsSpace(s[n + 1])
  }

  function FieldLength(s: string): (n: nat)
    requires FieldStarts(s)
    ensures 0 < n <= |s|
  {
    WordLength(s) + 1 + TokenLength(s[WordLength(s) + 1..])
  }

  function ScanFields(s: string): seq<(string, string)> {
    if s == "" then []
    else if FieldStarts(s) then
      var n := WordLength(s);
      [(s[..n], s[n + 1..FieldLength(s)])] + ScanFields(s[FieldLength(s)..])
    else ScanFields(s[1..])
  }

  function Entered(fields: seq<(string, string)>): map<string, string> {
    if fields == [] then map[]
    else Entered(fields[..|fields| - 1])[fields[|fields| - 1].0 := fields[|fields| - 1].1]
  }

  /** Digits only, and small enough to be exact. */
  function ParseInteger(value: string): Option<nat> {
    if !AllDigits(value) then None
    else
      var parsed := ValueInBase(value, 10);
      if 0 <= parsed <= MAX_SAFE_INTEGER then Some(parsed) else None
  }

  function Lookup(fields: map<string, string>, key: string): Option<string> {
    if key in fields then Some(fields[key]) else None
  }

  function NumberIn(fields: map<string, string>, key: string): nat {
    var parsed := ParseInteger(if key in fields then fields[key] else "0");
    if parsed == None then 0 else parsed.value
  }

  function MarkerOf(fields: map<string, string>): Option<ExecutionMarker> {
    var issue := if "issue" in fields then ParseInteger(fields["issue"]) else None;
    if issue == None || issue.value == 0 then None
    else
      Some(ExecutionMarker(issue.value, Lookup(fields, "batch"), Lookup(fields, "task"),
                           NumberIn(fields, "attempt"), NumberIn(fields, "seq")))
  }

  function Parsed(text: string): Option<ExecutionMarker> {
    var body := FindBody(text);
    if body == None then None else MarkerOf(Entered(ScanFields(body.value)))
  }

  method ParseExecutionMarker(text: string) returns (marker: Option<ExecutionMarker>)
    ensures marker == Parsed(text)
  {
    hide FindBody, ScanFields, MarkerOf;
    var body := FindBody(text);
    if body == None { return None; }
    var matches := ScanFields(body.value);
    var fields: map<string, string> := map[];
    for i := 0 to |matches|
      invariant fields == Entered(matches[..i])
    {
      assert matches[..i + 1][..i] == matches[..i];
      fields := fields[matches[i].0 := matches[i].1];
    }
    assert matches[..|matches|] == matches;
    marker := MarkerOf(fields);
  }

  // ----- the pattern, told from the text -----

  lemma {:induction false} TrimStartOf(pad: string, x: string)
    requires AllSpace(pad) && (x != "" ==> !IsSpace(x[0]))
    ensures TrimStart(pad + x) == x
  {
    TrimStartPadded(pad, x);
  }

  lemma {:induction false} TrimEndOf(x: string, pad: string)
    requires AllSpace(pad) && (x != "" ==> !IsSpace(x[|x| - 1]))
    ensures TrimEnd(x + pad) == x
  {
    TrimEndPadded(x, pad);
  }

  /** A marker is opened by the four characters of a comment, any white space, its name, and white space. */
  lemma OpeningIff(text: string, rest: string)
    ensures Opening(text) == Some(rest) <==>
              && (rest != "" ==> !IsSpace(rest[0]))
              && exists p: string, q: string ::
                   text == "<!--" + p + "micode:lc" + q + rest && AllSpace(p) && AllSpace(q) && q != ""
  {
    if Opening(text) == Some(rest) { OpeningHasParts(text, rest); }
    if p: string, q: string :|
         text == "<!--" + p + "micode:lc" + q + rest && AllSpace(p) && AllSpace(q) && q != ""
         && (rest != "" ==> !IsSpace(rest[0]))
    {
      PartsMakeOpening(text, p, q, rest);
    }
  }

  lemma OpeningHasParts(text: string, rest: string)
    requires Opening(text) == Some(rest)
    ensures rest != "" ==> !IsSpace(rest[0])
    ensures exists p: string, q: string ::
              text == "<!--" + p + "micode:lc" + q + rest && AllSpace(p) && AllSpace(q) && q != ""
  {
    var after := text[4..];
    var p := TrimStartSplit(after);
    var named := TrimStart(after);
    assert text[..4] == "<!--" && named[..9] == "micode:lc" by { hide TrimStart; }
    var spaced := named[9..];
    var q := TrimStartSplit(spaced);
    assert spaced != "" && IsSpace(spaced[0]) && TrimStart(spaced) == rest by { hide TrimStart; }
    hide TrimStart, IsSpace;
    assert q == "" ==> spaced == rest;
    assert text == "<!--" + p + "micode:lc" + q + rest;
  }

  lemma PartsMakeOpening(text: string, p: string, q: string, rest: string)
    requires text == "<!--" + p + "micode:lc" + q + rest && AllSpace(p) && AllSpace(q) && q != ""
    requires rest != "" ==> !IsSpace(rest[0])
    ensures Opening(text) == Some(rest)
  {
    var named := "micode:lc" + (q + rest);
    assert text[..4] == "<!--" && text[4..] == p + named;
    assert named[0] == 'm' && !IsSpace('m');
    TrimStartOf(p, named);
    TrimStartOf(q, rest);
    hide TrimStart;
    assert named[..9] == "micode:lc" && named[9..] == q + rest && (q + rest)[0] == q[0];
  }

  /** The body is what stands in front of the first -->, without white space at its end; it holds no >. */
  lemma BodyIff(text: string, body: string)
    ensures BodyOf(text) == Some(body) <==>
              && '>' !in body && (body != "" ==> !IsSpace(body[|body| - 1]))
              && exists pad: string, rest: string :: text == body + pad + "-->" + rest && AllSpace(pad)
  {
    if BodyOf(text) == Some(body) { BodyHasParts(text, body); }
    if pad: string, rest: string :|
         text == body + pad + "-->" + rest && AllSpace(pad)
         && '>' !in body && (body != "" ==> !IsSpace(body[|body| - 1]))
    {
      PartsMakeBody(text, body, pad, rest);
    }
  }

  lemma BodyHasParts(text: string, body: string)
    requires BodyOf(text) == Some(body)
    ensures '>' !in body && (body != "" ==> !IsSpace(body[|body| - 1]))
    ensures exists pad: string, rest: string :: text == body + pad + "-->" + rest && AllSpace(pad)
  {
    var close := IndexOf(text, ">", 0).value;
    IndexOfFirst(text, ">", 0);
    assert text[close] == ">"[0];
    var before := text[..close - 2];
    var pad := TrimEndSplit(before);
    forall i | 0 <= i < |body| ensures body[i] != '>' {
      assert body[i] == text[i] && !OccursAt(text, ">", i);
      assert text[i + 0] != ">"[0];
    }
    hide TrimEnd, IndexOf, OccursAt;
    assert text == before + "-->" + text[close + 1..];
  }

  lemma PartsMakeBody(text: string, body: string, pad: string, rest: string)
    requires text == body + pad + "-->" + rest && AllSpace(pad)
    requires '>' !in body && (body != "" ==> !IsSpace(body[|body| - 1]))
    ensures BodyOf(text) == Some(body)
  {
    var at := |body + pad| + 2;
    assert text[at] == '>' && text[at - 1] == '-' && text[at - 2] == '-' && text[..at - 2] == body + pad;
    TrimEndOf(body, pad);
    FirstBracket(text, body, pad, rest);
    hide IndexOf, TrimEnd, IsSpace;
  }

  lemma FirstBracket(text: string, body: string, pad: string, rest: string)
    requires text == body + pad + "-->" + rest && AllSpace(pad) && '>' !in body
    ensures IndexOf(text, ">", 0) == Some(|body + pad| + 2)
  {
    var at := |body + pad| + 2;
    assert text[at] == '>' && !IsSpace('>');
    hide IsSpace;
    forall k | 0 <= k < at ensures text[k] != '>' {
      assert k < |body| ==> text[k] == body[k] && body[k] in body;
      assert |body| <= k < |body + pad| ==> text[k] == pad[k - |body|];
    }
    assert OccursAt(text, ">", at);
    forall k | 0 <= k < at ensures !OccursAt(text, ">", k) {
      assert text[k + 0] != ">"[0];
    }
    hide OccursAt;
    IndexOfIs(text, ">", 0, Some(at));
  }

  /** A key is made of letters, digits and underscores, is not empty, and is followed by = and no white space. */
  lemma FieldStartsIff(s: string)
    ensures FieldStarts(s) <==>
              exists key: string, c: char, rest: string ::
                s == key + "=" + [c] + rest && key != "" && !IsSpace(c) && forall i :: 0 <= i < |key| ==> IsWord(key[i])
  {
    if FieldStarts(s) {
      var n := WordLength(s);
      WordsLead(s);
      hide WordLength, IsWord, IsSpace;
      assert s == s[..n] + "=" + [s[n + 1]] + s[n + 2..];
    }
    if key: string, c: char, rest: string :|
         s == key + "=" + [c] + rest && key != "" && !IsSpace(c) && forall i :: 0 <= i < |key| ==> IsWord(key[i])
    {
      assert s == key + ("=" + ([c] + rest));
      WordLengthOf(key, "=" + ([c] + rest));
      hide WordLength, IsWord, IsSpace;
    }
  }

  lemma {:induction false} WordsLead(s: string)
    ensures forall i :: 0 <= i < WordLength(s) ==> IsWord(s[i])
  {
    hide IsWord;
    if s != "" && IsWord(s[0]) { WordsLead(s[1..]); }
  }

  lemma {:induction false} WordLengthOf(key: string, rest: string)
    requires forall i :: 0 <= i < |key| ==> IsWord(key[i])
    requires rest != "" && rest[0] == '='
    ensures WordLength(key + rest) == |key|
  {
    if key == "" {
      assert key + rest == rest && !IsWord('=');
    } else {
      hide IsWord;
      assert (key + rest)[1..] == key[1..] + rest;
      WordLengthOf(key[1..], rest);
    }
  }

  const SMALL := "abcdefghijklmnopqrstuvwxyz"
  const CAPITAL := "ABCDEFGHIJKLMNOPQRSTUVWXYZ"
  const DIGITS := "0123456789"

  lemma SmallIff(c: char)
    ensures c in SMALL <==> 'a' <= c <= 'z'
  {
    assert forall i :: 0 <= i < 26 ==> SMALL[i] == 'a' + i as char;
    if 'a' <= c <= 'z' { assert SMALL[c as int - 'a' as int] == c; }
  }

  lemma CapitalIff(c: char)
    ensures c in CAPITAL <==> 'A' <= c <= 'Z'
  {
    assert forall i :: 0 <= i < 26 ==> CAPITAL[i] == 'A' + i as char;
    if 'A' <= c <= 'Z' { assert CAPITAL[c as int - 'A' as int] == c; }
  }

  lemma DigitIff(c: char)
    ensures c in DIGITS <==> '0' <= c <= '9'
  {
    assert forall i :: 0 <= i < 10 ==> DIGITS[i] == '0' + i as char;
    if '0' <= c <= '9' { assert DIGITS[c as int - '0' as int] == c; }
  }

  lemma WordIff(c: char)
    ensures IsWord(c) <==> c in SMALL || c in CAPITAL || c in DIGITS || c == '_'
  {
    SmallIff(c);
    CapitalIff(c);
    DigitIff(c);
  }

  /** What the fields say: there is a marker exactly for an issue that is a number from one to the largest safe
      integer; attempt and number are zero where they are none. */
  lemma FieldsRead(fields: map<string, string>)
    ensures MarkerOf(fields).Some? <==>
              && "issue" in fields && AllDigits(fields["issue"])
              && 1 <= ValueInBase(fields["issue"], 10) <= 9007199254740991
    ensures MarkerOf(fields).Some? ==>
              var m := MarkerOf(fields).value;
              && m.issueNumber == ValueInBase(fields["issue"], 10)
              && m.batchId == (if "batch" in fields then Some(fields["batch"]) else None)
              && m.taskId == (if "task" in fields then Some(fields["task"]) else None)
              && m.attempt == NumberOrZero(fields, "attempt") && m.seqNo == NumberOrZero(fields, "seq")
  {
    DigitsAreNatural(if "issue" in fields then fields["issue"] else "0");
    DigitsAreNatural(if "attempt" in fields then fields["attempt"] else "0");
    DigitsAreNatural(if "seq" in fields then fields["seq"] else "0");
    assert ValueInBase("0", 10) == 0 by { assert "0"[..0] == ""; }
    hide ValueInBase, AllDigits;
  }

  lemma {:induction false} DigitsAreNatural(s: string)
    ensures AllDigits(s) ==> ValueInBase(s, 10) >= 0
  {
    if AllDigits(s) {
      var init := s[..|s| - 1];
      if init != "" {
        assert AllDigits(init);
        DigitsAreNatural(init);
      }
    }
  }

  function NumberOrZero(fields: map<string, string>, key: string): int {
    if key in fields && AllDigits(fields[key]) && 0 <= ValueInBase(fields[key], 10) <= 9007199254740991
    then ValueInBase(fields[key], 10)
    else 0
  }

  // ----- which markers survive -----

  predicate IsToken(s: string) {
    s != "" && NoSpace(s) && '>' !in s
  }

  predicate IsOptionalToken(s: Option<string>) {
    s.Some? ==> IsToken(s.value)
  }

  predicate IsClean(m: ExecutionMarker) {
    && 0 < m.issueNumber <= MAX_SAFE_INTEGER && m.attempt <= MAX_SAFE_INTEGER && m.seqNo <= MAX_SAFE_INTEGER
    && IsOptionalToken(m.batchId) && IsOptionalToken(m.taskId)
  }

  lemma {:induction false} TokenIsPlain(s: string)
    ensures NoSpace(s[..TokenLength(s)])
    ensures s != "" && !IsSpace(s[0]) ==> TokenLength(s) > 0
  {
    if s != "" && !IsSpace(s[0]) { TokenIsPlain(s[1..]); }
  }

  lemma {:induction false} ScannedAreTokens(s: string)
    requires '>' !in s
    ensures forall i :: 0 <= i < |ScanFields(s)| ==> IsToken(ScanFields(s)[i].1)
  {
    if s != "" {
      if FieldStarts(s) {
        var n := WordLength(s);
        TokenIsPlain(s[n + 1..]);
        assert s[n + 1..FieldLength(s)] == s[n + 1..][..TokenLength(s[n + 1..])];
        ScannedAreTokens(s[FieldLength(s)..]);
      } else {
        ScannedAreTokens(s[1..]);
      }
    }
  }

  lemma {:induction false} EnteredIsScanned(fields: seq<(string, string)>, key: string)
    requires key in Entered(fields)
    ensures exists i :: 0 <= i < |fields| && fields[i] == (key, Entered(fields)[key])
  {
    var last := fields[|fields| - 1];
    if last.0 != key {
      EnteredIsScanned(fields[..|fields| - 1], key);
      var i :| 0 <= i < |fields| - 1 && fields[..|fields| - 1][i] == (key, Entered(fields[..|fields| - 1])[key]);
      assert fields[i] == (key, Entered(fields)[key]);
    } else {
      assert fields[|fields| - 1] == (key, Entered(fields)[key]);
    }
  }

  lemma {:induction false} BodyHasNoClose(text: string)
    requires FindBody(text).Some?
    ensures '>' !in FindBody(text).value
  {
    if MatchHere(text).Some? {
      MatchHasNoClose(text);
    } else {
      BodyHasNoClose(text[1..]);
    }
  }

  lemma MatchHasNoClose(text: string)
    requires MatchHere(text).Some?
    ensures '>' !in MatchHere(text).value
  {
    hide Opening;
    BodyEndsBeforeClose(Opening(text).value);
  }

  lemma BodyEndsBeforeClose(rest: string)
    requires BodyOf(rest).Some?
    ensures '>' !in BodyOf(rest).value
  {
    var close := IndexOf(rest, ">", 0).value;
    IndexOfFirst(rest, ">", 0);
    var before := rest[..close - 2];
    var tail := TrimEndSplit(before);
    hide TrimEnd, IndexOf;
    assert BodyOf(rest) == Some(TrimEnd(before));
    forall i | 0 <= i < |TrimEnd(before)| ensures TrimEnd(before)[i] != '>' {
      assert TrimEnd(before)[i] == before[i] == rest[i];
      assert !OccursAt(rest, ">", i);
    }
  }

  /** Whatever is parsed is clean. */
  lemma {:induction false} ParsedIsClean(text: string)
    requires Parsed(text).Some?
    ensures IsClean(Parsed(text).value)
  {
    var body := FindBody(text).value;
    BodyHasNoClose(text);
    ScannedAreTokens(body);
    hide FindBody, ScanFields, Entered, AllDigits, ValueInBase, NoSpace;
    var fields := Entered(ScanFields(body));
    forall key | key in fields ensures IsToken(fields[key]) {
      EnteredIsScanned(ScanFields(body), key);
    }
  }

  // ----- the round trip -----

  lemma {:induction false} WordStops(key: string, rest: string)
    requires forall i :: 0 <= i < |key| ==> IsWord(key[i])
    requires rest != "" && !IsWord(rest[0])
    ensures WordLength(key + rest) == |key|
  {
    if key == "" {
      assert key + rest == rest;
    } else {
      assert (key + rest)[1..] == key[1..] + rest;
      WordStops(key[1..], rest);
    }
  }

  lemma {:induction false} TokenStops(value: string, rest: string)
    requires NoSpace(value) && (rest != "" ==> IsSpace(rest[0]))
    ensures TokenLength(value + rest) == |value|
  {
    if value == "" {
      assert value + rest == rest;
    } else {
      assert (value + rest)[1..] == value[1..] + rest;
      TokenStops(value[1..], rest);
    }
  }

  predicate IsKey(key: string) {
    key != "" && forall i :: 0 <= i < |key| ==> IsWord(key[i])
  }

  lemma ScanStep(s: string, n: nat, m: nat)
    requires FieldStarts(s) && WordLength(s) == n && TokenLength(s[n + 1..]) == m
    ensures n + 1 + m <= |s|
    ensures ScanFields(s) == [(s[..n], s[n + 1..n + 1 + m])] + ScanFields(s[n + 1 + m..])
  {
    hide WordLength, TokenLength, FieldStarts, IsSpace;
    assert FieldLength(s) == n + 1 + m;
  }

  lemma FieldBegins(key: string, value: string, rest: string)
    requires IsKey(key) && value != "" && NoSpace(value) && (rest != "" ==> IsSpace(rest[0]))
    ensures var s := key + "=" + value + rest;
            FieldStarts(s) && WordLength(s) == |key| && TokenLength(s[|key| + 1..]) == |value|
  {
    var s := key + "=" + value + rest;
    assert s == key + ("=" + value + rest);
    WordStops(key, "=" + value + rest);
    assert s[|key| + 1..] == value + rest;
    TokenStops(value, rest);
  }

  lemma FieldScans(key: string, value: string, rest: string)
    requires IsKey(key) && value != "" && NoSpace(value) && (rest != "" ==> IsSpace(rest[0]))
    ensures ScanFields(key + "=" + value + rest) == [(key, value)] + ScanFields(rest)
  {
    FieldBegins(key, value, rest);
    hide *;
    var s := key + "=" + value + rest;
    ScanStep(s, |key|, |value|);
    FieldParts(key, value, rest);
  }

  lemma FieldParts(key: string, value: string, rest: string)
    ensures var s := key + "=" + value + rest;
            s[..|key|] == key && s[|key| + 1..|key| + 1 + |value|] == value && s[|key| + 1 + |value|..] == rest
  {
  }

  lemma SpaceScans(rest: string)
    ensures ScanFields(" " + rest) == ScanFields(rest)
  {
    assert WordLength(" " + rest) == 0 && (" " + rest)[1..] == rest;
  }

  // a list of fields, written out with spaces between them

  function Written(fields: seq<(string, string)>): seq<string> {
    if fields == [] then [] else [fields[0].0 + "=" + fields[0].1] + Written(fields[1..])
  }

  predicate AllFields(fields: seq<(string, string)>) {
    forall i :: 0 <= i < |fields| ==> IsKey(fields[i].0) && IsToken(fields[i].1)
  }

  lemma {:induction false} WrittenScans(fields: seq<(string, string)>)
    requires AllFields(fields)
    ensures ScanFields(Join(Written(fields), " ")) == fields
  {
    if fields != [] {
      var key, value := fields[0].0, fields[0].1;
      var rest := Join(Written(fields[1..]), " ");
      WrittenScans(fields[1..]);
      JoinWritten(fields);
      hide ScanFields, Join, Written, WordLength, TokenLength, FieldStarts;
      if |fields| == 1 {
        FieldScans(key, value, "");
        assert key + "=" + value + "" == key + "=" + value;
        NothingScans();
      } else {
        FieldScans(key, value, " " + rest);
        SpaceScans(rest);
        assert key + "=" + value + " " + rest == key + "=" + value + (" " + rest);
      }
    }
  }

  lemma NothingScans()
    ensures ScanFields("") == []
  {
  }

  lemma JoinWritten(fields: seq<(string, string)>)
    requires fields != []
    ensures Join(Written(fields), " ")
            == fields[0].0 + "=" + fields[0].1
               + if |fields| == 1 then "" else " " + Join(Written(fields[1..]), " ")
  {
    var first, rest := fields[0].0 + "=" + fields[0].1, Written(fields[1..]);
    assert Written(fields) == [first] + rest && (rest == [] <==> |fields| == 1);
    hide Written, Join;
    JoinCons(first, rest, " ");
  }

  /** A body neither starts nor ends with a space and does not close the comment. */
  predicate IsPlainBody(body: string) {
    body != "" && Trimmed(body) && '>' !in body
  }

  lemma {:induction false} WrittenIsPlain(fields: seq<(string, string)>)
    requires fields != [] && AllFields(fields)
    ensures IsPlainBody(Join(Written(fields), " "))
  {
    JoinWritten(fields);
    KeyIsPlain(fields[0].0);
    if |fields| > 1 { WrittenIsPlain(fields[1..]); }
  }

  lemma KeyIsPlain(key: string)
    requires IsKey(key)
    ensures !IsSpace(key[0]) && '>' !in key
  {
  }

  function PairsOf(m: ExecutionMarker): seq<(string, string)> {
    [("issue", NatToString(m.issueNumber))]
    + (if m.batchId == None then [] else [("batch", m.batchId.value)])
    + (if m.taskId == None then [] else [("task", m.taskId.value)])
    + [("attempt", NatToString(m.attempt)), ("seq", NatToString(m.seqNo))]
  }

  lemma {:induction false} WrittenConcat(a: seq<(string, string)>, b: seq<(string, string)>)
    ensures Written(a + b) == Written(a) + Written(b)
  {
    if a == [] {
      assert a + b == b;
    } else {
      assert (a + b)[1..] == a[1..] + b;
      WrittenConcat(a[1..], b);
    }
  }

  lemma WrittenOne(key: string, value: string)
    ensures Written([(key, value)]) == TextField(key, Some(value))
  {
    assert [(key, value)][1..] == [];
  }

  lemma FieldsAreWritten(m: ExecutionMarker)
    ensures Fields(m) == Written(PairsOf(m))
  {
    var issue := [("issue", NatToString(m.issueNumber))];
    var batch := if m.batchId == None then [] else [("batch", m.batchId.value)];
    var task := if m.taskId == None then [] else [("task", m.taskId.value)];
    var attempt, last := [("attempt", NatToString(m.attempt))], [("seq", NatToString(m.seqNo))];
    WrittenConcat(issue + batch + task + attempt, last);
    WrittenConcat(issue + batch + task, attempt);
    WrittenConcat(issue + batch, task);
    WrittenConcat(issue, batch);
    WrittenOne("issue", NatToString(m.issueNumber));
    if m.batchId.Some? { WrittenOne("batch", m.batchId.value); }
    if m.taskId.Some? { WrittenOne("task", m.taskId.value); }
    WrittenOne("attempt", NatToString(m.attempt));
    WrittenOne("seq", NatToString(m.seqNo));
    assert PairsOf(m) == issue + batch + task + attempt + last;
  }

  lemma PairsAreFields(m: ExecutionMarker)
    requires IsClean(m)
    ensures AllFields(PairsOf(m))
  {
    NatIsDigits(m.issueNumber);
    NatIsDigits(m.attempt);
    NatIsDigits(m.seqNo);
  }

  lemma EnteredMore(fields: seq<(string, string)>, key: string, value: string)
    ensures Entered(fields + [(key, value)]) == Entered(fields)[key := value]
  {
    assert (fields + [(key, value)])[..|fields|] == fields;
  }

  lemma KeysDiffer()
    ensures "issue" != "batch" && "issue" != "task" && "issue" != "attempt" && "issue" != "seq"
    ensures "batch" != "task" && "batch" != "attempt" && "batch" != "seq"
    ensures "task" != "attempt" && "task" != "seq" && "attempt" != "seq"
  {
    assert "issue"[0] == 'i' && "batch"[0] == 'b' && "task"[0] == 't';
  }

  /** The pairs as a map, entered one after another. */
  lemma EnteredPairs(m: ExecutionMarker)
    ensures var withIssue: map<string, string> := map["issue" := NatToString(m.issueNumber)];
            var withBatch := if m.batchId == None then withIssue else withIssue["batch" := m.batchId.value];
            var withTask := if m.taskId == None then withBatch else withBatch["task" := m.taskId.value];
            Entered(PairsOf(m)) == withTask["attempt" := NatToString(m.attempt)]["seq" := NatToString(m.seqNo)]
  {
    var issue := [("issue", NatToString(m.issueNumber))];
    var batch := if m.batchId == None then issue else issue + [("batch", m.batchId.value)];
    var task := if m.taskId == None then batch else batch + [("task", m.taskId.value)];
    var attempt := task + [("attempt", NatToString(m.attempt))];
    assert PairsOf(m) == attempt + [("seq", NatToString(m.seqNo))];
    EnteredMore([], "issue", NatToString(m.issueNumber));
    assert [] + issue == issue;
    if m.batchId.Some? { EnteredMore(issue, "batch", m.batchId.value); }
    if m.taskId.Some? { EnteredMore(batch, "task", m.taskId.value); }
    EnteredMore(task, "attempt", NatToString(m.attempt));
    EnteredMore(attempt, "seq", NatToString(m.seqNo));
  }

  lemma IntegerRoundTrip(n: nat)
    requires n <= MAX_SAFE_INTEGER
    ensures ParseInteger(NatToString(n)) == Some(n)
  {
    NatIsDigits(n);
    ValueOfNat(n, 10);
  }

  lemma MarkerOfPairs(m: ExecutionMarker)
    requires IsClean(m)
    ensures MarkerOf(Entered(PairsOf(m))) == Some(m)
  {
    IntegerRoundTrip(m.issueNumber);
    IntegerRoundTrip(m.attempt);
    IntegerRoundTrip(m.seqNo);
    KeysDiffer();
    EnteredPairs(m);
    hide NatToString, ParseInteger, Entered, PairsOf, IsToken;
  }

  // ----- the marker in a text -----

  lemma TrimStartSpace(s: string)
    requires s != "" && !IsSpace(s[0])
    ensures TrimStart(" " + s) == s
  {
    TrimStartPadded(" ", s);
  }

  lemma NameFollows(rest: string)
    requires rest != "" && !IsSpace(rest[0])
    ensures MatchHere(COMMENT_OPEN + (" " + (MARKER_NAME + (" " + rest)))) == BodyOf(rest)
  {
    hide BodyOf;
    var spaced := " " + rest;
    var named := MARKER_NAME + spaced;
    var text := COMMENT_OPEN + (" " + named);
    assert text[|COMMENT_OPEN|..] == " " + named;
    assert named[0] == 'm';
    TrimStartSpace(named);
    assert named[|MARKER_NAME|..] == spaced;
    TrimStartSpace(rest);
  }

  lemma BodyCloses(body: string, suffix: string)
    requires IsPlainBody(body)
    ensures BodyOf(body + (" -->" + suffix)) == Some(body)
  {
    var text := body + (" -->" + suffix);
    var close := |body| + 3;
    forall k | 0 <= k < close ensures !OccursAt(text, ">", k) {
      assert text[k] == if k < |body| then body[k] else " -->"[k - |body|];
      assert text[k] != ">"[0];
    }
    assert OccursAt(text, ">", close);
    IndexOfIs(text, ">", 0, Some(close));
    assert text[..close - 2] == body + " ";
    TrimEndPadded(body, " ");
  }

  lemma MarkerMatches(m: ExecutionMarker, suffix: string)
    requires IsClean(m)
    ensures MatchHere(BuildExecutionMarker(m) + suffix) == Some(Join(Written(PairsOf(m)), " "))
  {
    FieldsAreWritten(m);
    PairsAreFields(m);
    assert PairsOf(m) != [];
    var body := Join(Written(PairsOf(m)), " ");
    WrittenIsPlain(PairsOf(m));
    var rest := body + (" -->" + suffix);
    hide PairsOf, Written, Join, Fields, MatchHere, BodyOf, IsClean;
    assert rest[0] == body[0];
    NameFollows(rest);
    BodyCloses(body, suffix);
    MarkerText(body, suffix);
  }

  lemma MarkerText(body: string, suffix: string)
    ensures COMMENT_OPEN + " " + MARKER_NAME + " " + body + " -->" + suffix
            == COMMENT_OPEN + (" " + (MARKER_NAME + (" " + (body + (" -->" + suffix)))))
  {
  }

  lemma {:induction false} FindsFirst(prefix: string, text: string)
    requires MatchHere(text).Some?
    requires forall p :: 0 <= p < |prefix| ==> MatchHere(prefix[p..] + text) == None
    ensures FindBody(prefix + text) == MatchHere(text)
  {
    hide MatchHere;
    if prefix == "" {
      assert prefix + text == text;
    } else {
      assert prefix[0..] == prefix && (prefix + text)[1..] == prefix[1..] + text;
      forall p | 0 <= p < |prefix| - 1 ensures MatchHere(prefix[1..][p..] + text) == None {
        assert prefix[1..][p..] == prefix[p + 1..];
      }
      FindsFirst(prefix[1..], text);
    }
  }

  /** No marker starts in a text without <!--, not even one that would run into what follows. */
  lemma NoEarlierMatch(prefix: string, text: string, p: nat)
    requires !Occurs(prefix, COMMENT_OPEN) && p < |prefix|
    requires StartsWith(text, COMMENT_OPEN)
    ensures MatchHere(prefix[p..] + text) == None
  {
    var all := prefix[p..] + text;
    var n := |prefix| - p;
    assert !OccursAt(prefix, COMMENT_OPEN, p);
    assert forall j :: 0 <= j < n ==> all[j] == prefix[p + j];
    assert text[0] == COMMENT_OPEN[0] && all[n] == '<';
    assert forall j :: 1 <= j < 4 ==> COMMENT_OPEN[j] != '<';
  }

  /** The first marker of a text is read back, whatever follows it, when nothing before it opens a
      comment. */
  lemma {:induction false} MarkerIsFound(prefix: string, m: ExecutionMarker, suffix: string)
    requires IsClean(m) && !Occurs(prefix, COMMENT_OPEN)
    ensures Parsed(prefix + (BuildExecutionMarker(m) + suffix)) == Some(m)
  {
    hide IsClean, MatchHere, PairsOf, Written, Join, ScanFields, Entered, MarkerOf, FindBody;
    var text := BuildExecutionMarker(m) + suffix;
    MarkerMatches(m, suffix);
    assert StartsWith(text, COMMENT_OPEN);
    forall p | 0 <= p < |prefix| ensures MatchHere(prefix[p..] + text) == None {
      NoEarlierMatch(prefix, text, p);
    }
    FindsFirst(prefix, text);
    PairsAreFields(m);
    WrittenScans(PairsOf(m));
    MarkerOfPairs(m);
  }

  /** Exactly the clean markers survive being written and read. */
  lemma {:induction false} RoundTripIff(m: ExecutionMarker)
    ensures Parsed(BuildExecutionMarker(m)) == Some(m) <==> IsClean(m)
  {
    if IsClean(m) {
      MarkerIsFound("", m, "");
      assert "" + (BuildExecutionMarker(m) + "") == BuildExecutionMarker(m);
    }
    if Parsed(BuildExecutionMarker(m)) == Some(m) {
      ParsedIsClean(BuildExecutionMarker(m));
    }
  }

  // ----- the marker behind a headline -----

  /** How a headline affects the marker two lines below it: not at all; or it holds a marker of its
      own; or it opens one and never closes it, so that its fields come before those of the marker. */
  datatype Reading = Own | Quoted(marker: Option<ExecutionMarker>) | Swallowing(fields: seq<(string, string)>)

  function ReadingOf(headline: string): Reading {
    if headline == "" then Own
    else
      var rest := Opening(headline);
      if rest == None then ReadingOf(headline[1..])
      else if '>' !in rest.value then Swallowing(ScanFields(rest.value))
      else if BodyOf(rest.value).Some? then Quoted(MarkerOf(Entered(ScanFields(BodyOf(rest.value).value))))
      else ReadingOf(headline[1..])
  }

  /** The marker is read as it was written: nothing is quoted but the marker itself, and nothing is
      swallowed that the marker does not set again. */
  predicate LeavesAlone(headline: string, m: ExecutionMarker) {
    match ReadingOf(headline)
    case Own => true
    case Quoted(q) => q == Some(m)
    case Swallowing(fields) =>
      (m.batchId == None ==> "batch" !in Entered(fields)) && (m.taskId == None ==> "task" !in Entered(fields))
  }

  /** A headline ends in a bracket, which is part of no marker. */
  predicate EndsInBracket(s: string) {
    s != "" && s[|s| - 1] == ')'
  }

  lemma PrefixIsOwn(s: string, tail: string, pat: string)
    requires EndsInBracket(s) && ')' !in pat
    ensures StartsWith(s + tail, pat) <==> StartsWith(s, pat)
    ensures StartsWith(s, pat) ==>
              |pat| <= |s| && EndsInBracket(s[|pat|..]) && (s + tail)[|pat|..] == s[|pat|..] + tail
  {
    assert |s| <= |pat| ==> pat[|s| - 1] != ')';
    assert (s + tail)[|s| - 1] == ')';
    assert |pat| <= |s| ==> (s + tail)[..|pat|] == s[..|pat|];
  }

  lemma {:induction false} TrimStartIsOwn(s: string, tail: string)
    requires EndsInBracket(s)
    ensures EndsInBracket(TrimStart(s)) && TrimStart(s + tail) == TrimStart(s) + tail
    ensures !IsSpace(TrimStart(s)[0])
  {
    if IsSpace(s[0]) {
      assert s[|s| - 1] == ')' && !IsSpace(')');
      assert (s + tail)[1..] == s[1..] + tail;
      TrimStartIsOwn(s[1..], tail);
    }
  }

  /** Whether a headline opens a marker does not depend on what follows it. */
  lemma OpeningIsOwn(s: string, tail: string)
    requires EndsInBracket(s)
    ensures Opening(s).None? ==> Opening(s + tail) == None
    ensures Opening(s).Some? ==> EndsInBracket(Opening(s).value) && !IsSpace(Opening(s).value[0])
                                 && Opening(s + tail) == Some(Opening(s).value + tail)
  {
    hide TrimStart, StartsWith, EndsInBracket, IsSpace;
    assert ')' !in COMMENT_OPEN && ')' !in MARKER_NAME;
    PrefixIsOwn(s, tail, COMMENT_OPEN);
    if StartsWith(s, COMMENT_OPEN) {
      var after := s[|COMMENT_OPEN|..];
      TrimStartIsOwn(after, tail);
      var named := TrimStart(after);
      PrefixIsOwn(named, tail, MARKER_NAME);
      if StartsWith(named, MARKER_NAME) {
        var spaced := named[|MARKER_NAME|..];
        SpacedIsOwn(spaced, tail);
        TrimStartIsOwn(spaced, tail);
      }
    }
  }

  lemma SpacedIsOwn(spaced: string, tail: string)
    requires EndsInBracket(spaced)
    ensures spaced != "" && spaced + tail != "" && (spaced + tail)[0] == spaced[0]
  {
  }

  /** A closed comment reads the same whatever follows it. */
  lemma BodyIsOwn(rest: string, tail: string)
    requires '>' in rest
    ensures BodyOf(rest + tail) == BodyOf(rest)
  {
    var i :| 0 <= i < |rest| && rest[i] == '>';
    assert OccursAt(rest, ">", i);
    IndexOfFirst(rest, ">", 0);
    var close := IndexOf(rest, ">", 0);
    assert close.Some?;
    forall k | 0 <= k < close.value ensures !OccursAt(rest + tail, ">", k) {
      assert !OccursAt(rest, ">", k);
      assert (rest + tail)[k] == rest[k];
    }
    assert OccursAt(rest + tail, ">", close.value);
    IndexOfIs(rest + tail, ">", 0, close);
    hide IndexOf, OccursAt, TrimEnd;
    if close.value >= 2 { assert (rest + tail)[..close.value - 2] == rest[..close.value - 2]; }
  }

  lemma {:induction false} WordIsOwn(a: string, b: string)
    requires b != "" && IsSpace(b[0])
    ensures WordLength(a + b) == WordLength(a) && TokenLength(a + b) == TokenLength(a)
  {
    if a == "" {
      assert a + b == b;
    } else {
      assert (a + b)[1..] == a[1..] + b;
      WordIsOwn(a[1..], b);
    }
  }

  lemma FieldStartIsOwn(a: string, b: string)
    requires a != "" && b != "" && IsSpace(b[0])
    ensures WordLength(a + b) == WordLength(a)
    ensures FieldStarts(a + b) <==> FieldStarts(a)
    ensures FieldStarts(a) ==> FieldLength(a + b) == FieldLength(a)
  {
    var n := WordLength(a);
    WordIsOwn(a, b);
    if n + 1 <= |a| {
      WordIsOwn(a[n + 1..], b);
      assert (a + b)[n + 1..] == a[n + 1..] + b;
    }
    hide WordLength, TokenLength, IsSpace;
  }

  lemma FieldIsOwn(a: string, b: string)
    requires a != "" && b != "" && IsSpace(b[0])
    ensures FieldStarts(a + b) <==> FieldStarts(a)
    ensures FieldStarts(a) ==>
              FieldLength(a + b) == FieldLength(a) && (a + b)[FieldLength(a)..] == a[FieldLength(a)..] + b
    ensures FieldStarts(a) ==>
              var n := WordLength(a);
              WordLength(a + b) == n && (a + b)[..n] == a[..n]
              && (a + b)[n + 1..FieldLength(a)] == a[n + 1..FieldLength(a)]
  {
    FieldStartIsOwn(a, b);
    hide WordLength, TokenLength, IsSpace;
  }

  /** Fields do not reach across a space. */
  lemma {:induction false} ScanConcat(a: string, b: string)
    requires b != "" && IsSpace(b[0])
    ensures ScanFields(a + b) == ScanFields(a) + ScanFields(b)
  {
    hide FieldStarts, FieldLength, WordLength, IsSpace;
    if a == "" {
      assert a + b == b;
    } else {
      FieldIsOwn(a, b);
      if FieldStarts(a) {
        ScanConcat(a[FieldLength(a)..], b);
      } else {
        assert (a + b)[1..] == a[1..] + b;
        ScanConcat(a[1..], b);
      }
    }
  }

  lemma {:induction false} NoFields(s: string)
    requires '=' !in s
    ensures ScanFields(s) == []
  {
    if s != "" { NoFields(s[1..]); }
  }

  lemma {:induction false} EnteredConcat(a: seq<(string, string)>, b: seq<(string, string)>)
    ensures Entered(a + b) == Entered(a) + Entered(b)
  {
    if b == [] {
      assert a + b == a;
    } else {
      assert (a + b)[..|a + b| - 1] == a + b[..|b| - 1];
      EnteredConcat(a, b[..|b| - 1]);
    }
  }

  /** The marker with the batch and task that a swallowing headline adds to it. */
  function Swallowed(m: ExecutionMarker, fields: seq<(string, string)>): ExecutionMarker {
    m.(batchId := if m.batchId.Some? then m.batchId else Lookup(Entered(fields), "batch"),
       taskId := if m.taskId.Some? then m.taskId else Lookup(Entered(fields), "task"))
  }

  lemma MarkerOfSwallowed(m: ExecutionMarker, fields: seq<(string, string)>)
    requires IsClean(m)
    ensures MarkerOf(Entered(fields + PairsOf(m))) == Some(Swallowed(m, fields))
  {
    EnteredConcat(fields, PairsOf(m));
    IntegerRoundTrip(m.issueNumber);
    IntegerRoundTrip(m.attempt);
    IntegerRoundTrip(m.seqNo);
    KeysDiffer();
    EnteredPairs(m);
    hide NatToString, ParseInteger, Entered, PairsOf, IsToken;
  }

  const SWALLOWED_OPENING := "\n\n" + COMMENT_OPEN + " " + MARKER_NAME

  lemma SwallowedParts(rest: string, m: ExecutionMarker)
    ensures rest + ("\n\n" + BuildExecutionMarker(m))
            == rest + (SWALLOWED_OPENING + (" " + Join(Fields(m), " "))) + (" -->" + "")
  {
    var body := Join(Fields(m), " ");
    hide Join, Fields;
    assert "\n\n" + (COMMENT_OPEN + " " + MARKER_NAME + " " + body + " -->")
           == SWALLOWED_OPENING + (" " + body) + " -->";
    assert rest + (SWALLOWED_OPENING + (" " + body) + " -->") == rest + (SWALLOWED_OPENING + (" " + body)) + " -->";
  }

  lemma OpeningHasNoFields()
    ensures '=' !in SWALLOWED_OPENING && '>' !in SWALLOWED_OPENING
    ensures SWALLOWED_OPENING != "" && IsSpace(SWALLOWED_OPENING[0])
  {
    assert '=' !in COMMENT_OPEN && '=' !in MARKER_NAME && '>' !in COMMENT_OPEN && '>' !in MARKER_NAME;
    assert '=' !in "\n\n" && '>' !in "\n\n" && '=' !in " " && '>' !in " ";
    assert ("\n\n" + COMMENT_OPEN + " " + MARKER_NAME)[0] == '\n';
  }

  /** An opening that the headline does not close runs to the end of the marker below. */
  lemma SwallowingReads(rest: string, m: ExecutionMarker)
    requires IsClean(m) && EndsInBracket(rest) && !IsSpace(rest[0]) && '>' !in rest
    ensures var body := BodyOf(rest + ("\n\n" + BuildExecutionMarker(m)));
            body.Some? && ScanFields(body.value) == ScanFields(rest) + PairsOf(m)
  {
    FieldsAreWritten(m);
    PairsAreFields(m);
    assert PairsOf(m) != [];
    WrittenIsPlain(PairsOf(m));
    WrittenScans(PairsOf(m));
    SwallowedParts(rest, m);
    OpeningHasNoFields();
    NoFields(SWALLOWED_OPENING);
    var body := Join(Fields(m), " ");
    hide ScanFields, PairsOf, Fields, Join, Written, BuildExecutionMarker, SWALLOWED_OPENING, BodyOf, IsSpace;
    var tail := SWALLOWED_OPENING + (" " + body);
    SwallowedIsPlain(rest, SWALLOWED_OPENING, body);
    BodyCloses(rest + tail, "");
    assert tail != "" && tail[0] == SWALLOWED_OPENING[0];
    ScanConcat(rest, tail);
    assert IsSpace(' ') && (" " + body)[0] == ' ' by { SpaceIsSpace(); }
    ScanConcat(SWALLOWED_OPENING, " " + body);
    SpaceScans(body);
    assert [] + PairsOf(m) == PairsOf(m);
  }

  lemma SpaceIsSpace()
    ensures IsSpace(' ')
  {
  }

  lemma SwallowedIsPlain(rest: string, opening: string, body: string)
    requires IsPlainBody(body) && EndsInBracket(rest) && !IsSpace(rest[0]) && '>' !in rest && '>' !in opening
    ensures IsPlainBody(rest + (opening + (" " + body)))
  {
    var all := rest + (opening + (" " + body));
    assert all[0] == rest[0] && all[|all| - 1] == body[|body| - 1];
  }

  /** What is parsed from a clean marker two lines below a headline. */
  lemma {:induction false} HeadlineReads(headline: string, m: ExecutionMarker)
    requires IsClean(m) && (headline == "" || EndsInBracket(headline))
    ensures Parsed(headline + ("\n\n" + BuildExecutionMarker(m)))
            == match ReadingOf(headline)
               case Own => Some(m)
               case Quoted(q) => q
               case Swallowing(fields) => Some(Swallowed(m, fields))
  {
    var tail := "\n\n" + BuildExecutionMarker(m);
    hide Opening, BodyOf, ScanFields, Entered, MarkerOf, IsClean, BuildExecutionMarker, Swallowed;
    if headline == "" {
      NoCommentInBreak();
      MarkerIsFound("\n\n", m, "");
      assert BuildExecutionMarker(m) + "" == BuildExecutionMarker(m);
      assert "" + tail == tail;
    } else {
      OpeningIsOwn(headline, tail);
      var rest := Opening(headline);
      if rest.Some? && '>' !in rest.value {
        SwallowingReads(rest.value, m);
        MarkerOfSwallowed(m, ScanFields(rest.value));
      } else {
        if rest.Some? { BodyIsOwn(rest.value, tail); }
        if rest.None? || BodyOf(rest.value).None? {
          assert (headline + tail)[1..] == headline[1..] + tail;
          HeadlineReads(headline[1..], m);
        }
      }
    }
  }

  lemma NoCommentInBreak()
    ensures !Occurs("\n\n", COMMENT_OPEN)
  {
  }

  /** The marker two lines below a headline is read back exactly when it is clean and the headline
      leaves it alone. */
  lemma {:induction false} MarkerIsReadIff(headline: string, m: ExecutionMarker)
    requires EndsInBracket(headline)
    ensures Parsed(headline + ("\n\n" + BuildExecutionMarker(m))) == Some(m) <==> IsClean(m) && LeavesAlone(headline, m)
  {
    var text := headline + ("\n\n" + BuildExecutionMarker(m));
    if Parsed(text) == Some(m) { ParsedIsClean(text); }
    hide Parsed, ReadingOf, BuildExecutionMarker, IsClean, Entered;
    if IsClean(m) { HeadlineReads(headline, m); }
  }
}
