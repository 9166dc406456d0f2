/** Blocks between a begin and an end marker in an issue body: extracting, replacing, and why
    no marker can be found across the seams of the text that replacing builds. */
module IssueMarkers {
  import opened Wrappers
  import opened Str

  function MarkerOf(name: string): string {
    "<!-- micode:lifecycle:" + name + " -->"
  }

  const STATE_BEGIN := MarkerOf("state:begin")
  const STATE_END := MarkerOf("state:end")
  const ARTIFACTS_BEGIN := MarkerOf("artifacts:begin")
  const ARTIFACTS_END := MarkerOf("artifacts:end")
  const CHECKLIST_BEGIN := MarkerOf("checklist:begin")
  const CHECKLIST_END := MarkerOf("checklist:end")
  const AI_REVIEW_BEGIN := MarkerOf("ai-review:begin")
  const AI_REVIEW_END := MarkerOf("ai-review:end")
  const AI_REVIEW_COMMENT := MarkerOf("ai-review-comment")

  const MARKERS := {
    STATE_BEGIN, STATE_END, ARTIFACTS_BEGIN, ARTIFACTS_END, CHECKLIST_BEGIN, CHECKLIST_END,
    AI_REVIEW_BEGIN, AI_REVIEW_END, AI_REVIEW_COMMENT
  }

  function ExtractBetween(body: string, begin: string, end: string): Option<string> {
    var start := IndexOf(body, begin, 0);
    if start == None then None
    else
      var stop := IndexOf(body, end, start.value + |begin|);
      if stop == None then None else Some(Trim(body[start.value + |begin|..stop.value]))
  }

  function BlockOf(begin: string, end: string, replacement: string): string {
    begin + "\n" + replacement + "\n" + end
  }

  function ReplaceBetween(body: string, begin: string, end: string, replacement: string): string {
    var block := BlockOf(begin, end, replacement);
    var start := IndexOf(body, begin, 0);
    if start == None then TrimEnd(body) + "\n\n" + block + "\n"
    else
      var stop := IndexOf(body, end, start.value + |begin|);
      if stop == None then TrimEnd(body) + "\n\n" + block + "\n"
      else body[..start.value] + block + body[stop.value + |end|..]
  }

  // ----- markers -----

  /** '<' only at its first position, '>' only at its last, and on one line. */
  predicate IsMarker(m: string) {
    && |m| >= 2 && m[0] == '<' && m[|m| - 1] == '>'
    && (forall i :: 0 < i < |m| ==> m[i] != '<')
    && (forall i :: 0 <= i < |m| - 1 ==> m[i] != '>')
    && (forall i :: 0 <= i < |m| ==> m[i] != '\n')
  }

  lemma NamedMarker(name: string)
    requires forall i :: 0 <= i < |name| ==> name[i] != '<' && name[i] != '>' && name[i] != '\n'
    ensures IsMarker(MarkerOf(name))
  {
    var head, tail := "<!-- micode:lifecycle:", " -->";
    assert forall i :: 0 <= i < |head| ==> head[i] != '>' && head[i] != '\n' && (i > 0 ==> head[i] != '<');
  }

  lemma MarkersAreMarkers()
    ensures forall m :: m in MARKERS ==> IsMarker(m)
  {
    NamedMarker("state:begin");
    NamedMarker("state:end");
    NamedMarker("artifacts:begin");
    NamedMarker("artifacts:end");
    NamedMarker("checklist:begin");
    NamedMarker("checklist:end");
    NamedMarker("ai-review:begin");
    NamedMarker("ai-review:end");
    NamedMarker("ai-review-comment");
  }

  /** No marker can straddle a seam between x and y. */
  predicate SafeSeam(x: string, y: string) {
    || x == "" || y == "" || x[|x| - 1] == '>' || x[|x| - 1] == '\n' || y[0] == '<' || y[0] == '\n'
  }

  lemma OccursConcat(x: string, y: string, m: string, k: int)
    requires IsMarker(m) && SafeSeam(x, y)
    ensures OccursAt(x + y, m, k) <==> OccursAt(x, m, k) || OccursAt(y, m, k - |x|)
  {
    var s := x + y;
    if 0 <= k < |x| < k + |m| <= |s| {
      // the last character of x and the first of y are both strictly inside the window
      assert m[|x| - 1 - k] != '>' && m[|x| - 1 - k] != '\n';
      assert m[|x| - k] != '<' && m[|x| - k] != '\n';
    } else if OccursAt(x, m, k) || OccursAt(y, m, k - |x|) {
      assert OccursAt(s, m, k);
    }
  }

  lemma PaddedFree(r: string, m: string)
    requires IsMarker(m) && !Occurs(r, m)
    ensures !Occurs("\n" + r + "\n", m)
  {
    forall k ensures !OccursAt("\n" + r + "\n", m, k) {
      OccursConcat("\n" + r, "\n", m, k);
      OccursConcat("\n", r, m, k);
    }
  }

  lemma OccursTrimEnd(s: string, m: string, k: int)
    requires IsMarker(m)
    ensures OccursAt(s, m, k) <==> OccursAt(TrimEnd(s), m, k)
  {
    var tail := TrimEndSplit(s);
    var t := TrimEnd(s);
    if OccursAt(s, m, k) {
      assert s[k + |m| - 1] == s[k..k + |m|][|m| - 1] == '>';
      assert s[k..k + |m|] == t[k..k + |m|];
    }
    if OccursAt(t, m, k) { assert s[k..k + |m|] == t[k..k + |m|]; }
  }

  /** A marker that y begins with is the first one found from a place in x after which x has none. */
  lemma IndexOfAtSeam(x: string, y: string, m: string, from: nat)
    requires IsMarker(m) && SafeSeam(x, y) && StartsWith(y, m) && from <= |x|
    requires forall k :: from <= k ==> !OccursAt(x, m, k)
    ensures IndexOf(x + y, m, from) == Some(|x|)
  {
    forall k | from <= k <= |x| ensures OccursAt(x + y, m, k) <==> k == |x| {
      OccursConcat(x, y, m, k);
    }
    IndexOfIs(x + y, m, from, Some(|x|));
  }

  // ----- the lens -----

  /** The raw text between the first begin and the end that follows it. */
  function Inner(body: string, begin: string, end: string): Option<string> {
    var start := IndexOf(body, begin, 0);
    if start == None then None
    else
      var stop := IndexOf(body, end, start.value + |begin|);
      if stop == None then None else Some(body[start.value + |begin|..stop.value])
  }

  predicate Absent(body: string, begin: string) {
    IndexOf(body, begin, 0) == None
  }

  /** A begin marker that no end marker follows. */
  predicate Dangling(body: string, begin: string, end: string) {
    !Absent(body, begin) && Inner(body, begin, end) == None
  }

  /** The pair is absent, or its first begin is followed by its end with no marker of ms between. */
  ghost predicate PairOk(body: string, begin: string, end: string, ms: set<string>) {
    !Dangling(body, begin, end) &&
    (!Absent(body, begin) ==> forall m :: m in ms ==> !Occurs(Inner(body, begin, end).value, m))
  }

  /** The text before and after the block that replacing writes. */
  function Before(body: string, begin: string, end: string): string {
    if Inner(body, begin, end) == None then TrimEnd(body) + "\n\n"
    else body[..IndexOf(body, begin, 0).value]
  }

  function After(body: string, begin: string, end: string): string {
    if Inner(body, begin, end) == None then "\n"
    else body[IndexOf(body, end, IndexOf(body, begin, 0).value + |begin|).value + |end|..]
  }

  /** Replacing changes nothing outside the block. */
  lemma ReplaceFrame(body: string, begin: string, end: string, r: string)
    ensures ReplaceBetween(body, begin, end, r)
            == Before(body, begin, end) + BlockOf(begin, end, r) + After(body, begin, end)
  {
    hide IndexOf;
  }

  /** The body around its block. */
  lemma BodyFrame(body: string, begin: string, end: string)
    requires Inner(body, begin, end).Some?
    ensures body == Before(body, begin, end) + (begin + Inner(body, begin, end).value + end) + After(body, begin, end)
  {
    hide IndexOf;
    var i := IndexOf(body, begin, 0).value;
  }

  lemma BeforeHasNoBegin(body: string, begin: string, end: string, k: int)
    requires IsMarker(begin) && !Dangling(body, begin, end)
    ensures !OccursAt(Before(body, begin, end), begin, k)
  {
    var pre := Before(body, begin, end);
    IndexOfFirst(body, begin, 0);
    if Absent(body, begin) {
      OccursTrimEnd(body, begin, k);
      OccursConcat(TrimEnd(body), "\n\n", begin, k);
    } else if OccursAt(pre, begin, k) {
      assert OccursAt(body, begin, k);
    }
  }

  /** The end found after a begin that text free of it follows. */
  lemma EndOfBlock(x: string, middle: string, end: string, post: string)
    requires IsMarker(end) && !Occurs(middle, end) && EndsWith(x, ">") && EndsWith(middle, "\n")
    ensures IndexOf(x + middle + (end + post), end, |x|) == Some(|x + middle|)
  {
    hide IndexOf;
    forall k | |x| <= k ensures !OccursAt(x + middle, end, k) {
      OccursConcat(x, middle, end, k);
    }
    IndexOfAtSeam(x + middle, end + post, end, |x|);
  }

  /** The raw text of a block written between pre and post. */
  lemma InnerOfBlock(pre: string, begin: string, end: string, r: string, post: string)
    requires IsMarker(begin) && IsMarker(end)
    requires !Occurs(pre, begin) && !Occurs(r, end)
    ensures Inner(pre + BlockOf(begin, end, r) + post, begin, end) == Some("\n" + r + "\n")
    ensures IndexOf(pre + BlockOf(begin, end, r) + post, begin, 0) == Some(|pre|)
    ensures IndexOf(pre + BlockOf(begin, end, r) + post, end, |pre| + |begin|)
            == Some(|pre| + |begin| + |r| + 2)
  {
    hide IndexOf, OccursAt;
    var s := pre + BlockOf(begin, end, r) + post;
    var middle := "\n" + r + "\n";
    assert s == pre + (BlockOf(begin, end, r) + post);
    IndexOfAtSeam(pre, BlockOf(begin, end, r) + post, begin, 0);
    assert s == pre + begin + middle + (end + post);
    PaddedFree(r, end);
    EndOfBlock(pre + begin, middle, end, post);
    SliceOfConcat(pre + begin + middle, end + post, |pre + begin|, |pre + begin + middle|);
  }

  /** Extracting after replacing gives the trimmed replacement exactly when the begin marker is
      not a dangling one, and then the raw text is the replacement on its own lines. */
  lemma ExtractAfterReplace(body: string, begin: string, end: string, r: string)
    requires IsMarker(begin) && IsMarker(end) && begin != end
    requires !Occurs(r, begin) && !Occurs(r, end)
    ensures !Dangling(body, begin, end) ==>
              Inner(ReplaceBetween(body, begin, end, r), begin, end) == Some("\n" + r + "\n")
    ensures ExtractBetween(ReplaceBetween(body, begin, end, r), begin, end) == Some(Trim(r))
            <==> !Dangling(body, begin, end)
  {
    ReplaceFrame(body, begin, end, r);
    if Dangling(body, begin, end) {
      DanglingKeepsOldBegin(body, begin, end, r);
    } else {
      var pre := Before(body, begin, end);
      forall k ensures !OccursAt(pre, begin, k) { BeforeHasNoBegin(body, begin, end, k); }
      InnerOfBlock(pre, begin, end, r, After(body, begin, end));
      TrimPadded("\n", r, "\n");
    }
  }

  /** With a dangling begin marker a second block is appended, and what is extracted afterwards
      runs from the old begin marker through the new one. */
  lemma DanglingKeepsOldBegin(body: string, begin: string, end: string, r: string)
    requires IsMarker(begin) && IsMarker(end) && begin != end
    requires !Occurs(r, begin) && !Occurs(r, end)
    requires Dangling(body, begin, end)
    ensures ExtractBetween(ReplaceBetween(body, begin, end, r), begin, end) != Some(Trim(r))
  {
    hide IndexOf, OccursAt;
    var t := TrimEnd(body);
    var suffix := "\n\n" + BlockOf(begin, end, r) + "\n";
    var from := IndexOf(body, begin, 0).value + |begin|;
    AppendedShape(t, BlockOf(begin, end, r));
    OldBeginFirst(body, begin, suffix);
    IndexOfFirst(body, end, from);
    var stop := IndexOf(t + suffix, end, from);
    if stop.Some? {
      ExtractedKeepsNewBegin(body, begin, end, r, from, stop.value);
    }
  }

  lemma AppendedShape(t: string, block: string)
    ensures t + "\n\n" + block + "\n" == t + ("\n\n" + block + "\n")
  {
  }

  lemma ExtractedKeepsNewBegin(body: string, begin: string, end: string, r: string, from: nat, to: nat)
    requires IsMarker(begin) && IsMarker(end) && begin != end && !Occurs(r, begin)
    requires from <= |TrimEnd(body)| && from <= to
    requires forall i :: from <= i ==> !OccursAt(body, end, i)
    requires OccursAt(TrimEnd(body) + ("\n\n" + BlockOf(begin, end, r) + "\n"), end, to)
    ensures Trim((TrimEnd(body) + ("\n\n" + BlockOf(begin, end, r) + "\n"))[from..to]) != Trim(r)
  {
    var x, rest := TrimEnd(body) + "\n\n", "\n" + r + "\n" + end + "\n";
    var s := x + begin + rest;
    assert TrimEnd(body) + ("\n\n" + BlockOf(begin, end, r) + "\n") == s;
    EndAfterNewBegin(begin, end, rest, to, from, body);
    TextKeepsMarker(x, begin, rest, from, to);
    if Trim(s[from..to]) == Trim(r) { MarkerOfTrim(r, begin); }
  }

  lemma TextKeepsMarker(x: string, m: string, y: string, from: nat, to: nat)
    requires IsMarker(m) && from <= |x| && |x| + |m| <= to <= |x + m + y|
    ensures Occurs(Trim((x + m + y)[from..to]), m)
  {
    var text := (x + m + y)[from..to];
    var p := |x| - from;
    assert (x + m + y)[|x|..|x| + |m|] == m;
    SliceOfSlice(x + m + y, from, to, p, p + |m|);
    MarkerSurvivesTrim(text, m, p);
  }

  lemma OldBeginFirst(body: string, begin: string, suffix: string)
    requires IsMarker(begin) && !Absent(body, begin)
    requires suffix != "" && suffix[0] == '\n'
    ensures var i := IndexOf(body, begin, 0).value;
            i + |begin| <= |TrimEnd(body)| && IndexOf(TrimEnd(body) + suffix, begin, 0) == Some(i)
  {
    var t := TrimEnd(body);
    var i := IndexOf(body, begin, 0).value;
    OccursTrimEnd(body, begin, i);
    OccursConcat(t, suffix, begin, i);
    IndexOfFirst(body, begin, 0);
    forall k | 0 <= k < i ensures !OccursAt(t + suffix, begin, k) {
      OccursConcat(t, suffix, begin, k);
      OccursTrimEnd(body, begin, k);
    }
    IndexOfIs(t + suffix, begin, 0, Some(i));
  }

  lemma EndAfterNewBegin(begin: string, end: string, rest: string, k: nat, from: nat, body: string)
    requires IsMarker(begin) && IsMarker(end) && begin != end
    requires forall i :: from <= i ==> !OccursAt(body, end, i)
    requires from <= k && OccursAt(TrimEnd(body) + "\n\n" + begin + rest, end, k)
    ensures k >= |TrimEnd(body)| + 2 + |begin|
  {
    var t := TrimEnd(body);
    OccursTrimEnd(body, end, k);
    OccursConcat(t + "\n\n" + begin, rest, end, k);
    OccursConcat(t + "\n\n", begin, end, k);
    OccursConcat(t, "\n\n", end, k);
  }

  lemma MarkerSurvivesTrim(text: string, m: string, p: int)
    requires IsMarker(m) && OccursAt(text, m, p)
    ensures Occurs(Trim(text), m)
  {
    var head, tail := TrimSplit(text);
    assert text[p] == text[p..p + |m|][0] == '<';
    assert text[p + |m| - 1] == text[p..p + |m|][|m| - 1] == '>';
    assert text[p..p + |m|] == Trim(text)[p - |head|..p - |head| + |m|];
    assert OccursAt(Trim(text), m, p - |head|);
  }

  lemma MarkerOfTrim(r: string, m: string)
    requires Occurs(Trim(r), m)
    ensures Occurs(r, m)
  {
    var head, tail := TrimSplit(r);
    var k :| OccursAt(Trim(r), m, k);
    assert r[|head| + k..|head| + k + |m|] == Trim(r)[k..k + |m|];
    assert OccursAt(r, m, |head| + k);
  }

  // ----- what replacing one block does to the others -----

  /** The middle part can be cut out or exchanged without a marker straddling its seams. */
  predicate Sealed(mid: string, post: string) {
    mid != "" && (mid[0] == '<' || mid[0] == '\n') && (post == "" || mid[|mid| - 1] == '>')
  }

  lemma OccursInThree(pre: string, mid: string, post: string, m: string, k: int)
    requires IsMarker(m) && Sealed(mid, post) && !Occurs(mid, m)
    ensures OccursAt(pre + mid + post, m, k) <==> OccursAt(pre, m, k) || OccursAt(post, m, k - |pre| - |mid|)
  {
    OccursConcat(pre + mid, post, m, k);
    OccursConcat(pre, mid, m, k);
  }

  function Shift(o: Option<nat>, d: nat): Option<nat> {
    if o.Some? then Some(o.value + d) else None
  }

  lemma IndexOfInThree(pre: string, mid: string, post: string, m: string, from: nat)
    requires IsMarker(m) && Sealed(mid, post) && !Occurs(mid, m)
    ensures IndexOf(pre, m, from).Some? ==> IndexOf(pre + mid + post, m, from) == IndexOf(pre, m, from)
    ensures IndexOf(pre, m, from).None? && from <= |pre| + |mid| ==>
              IndexOf(pre + mid + post, m, from) == Shift(IndexOf(post, m, 0), |pre| + |mid|)
    ensures |pre| + |mid| <= from ==>
              IndexOf(pre + mid + post, m, from)
              == Shift(IndexOf(post, m, from - |pre| - |mid|), |pre| + |mid|)
  {
    forall k ensures OccursAt(pre + mid + post, m, k) <==>
                     OccursAt(pre, m, k) || OccursAt(post, m, k - |pre| - |mid|) {
      OccursInThree(pre, mid, post, m, k);
    }
    var off := |pre| + |mid|;
    IndexOfFirst(pre, m, from);
    if IndexOf(pre, m, from).Some? {
      IndexOfIs(pre + mid + post, m, from, IndexOf(pre, m, from));
    } else {
      var fromPost: nat := if off <= from then from - off else 0;
      IndexOfFirst(post, m, fromPost);
      IndexOfIs(pre + mid + post, m, from, Shift(IndexOf(post, m, fromPost), off));
    }
  }

  /** What lies between a pair depends only on the parts before and after. */
  lemma InnerOfThree(pre: string, mid: string, post: string, b: string, e: string)
    requires IsMarker(b) && IsMarker(e) && Sealed(mid, post) && !Occurs(mid, b) && !Occurs(mid, e)
    requires !Dangling(pre, b, e)
    ensures Inner(pre + mid + post, b, e) == if Absent(pre, b) then Inner(post, b, e) else Inner(pre, b, e)
    ensures Absent(pre + mid + post, b) <==> Absent(pre, b) && Absent(post, b)
  {
    hide IndexOf;
    IndexOfInThree(pre, mid, post, b, 0);
    if !Absent(pre, b) {
      InnerBefore(pre, mid, post, b, e);
    } else if !Absent(post, b) {
      InnerAfter(pre, mid, post, b, e);
    }
  }

  lemma InnerBefore(pre: string, mid: string, post: string, b: string, e: string)
    requires IsMarker(b) && IsMarker(e) && Sealed(mid, post) && !Occurs(mid, b) && !Occurs(mid, e)
    requires !Dangling(pre, b, e) && !Absent(pre, b)
    ensures Inner(pre + mid + post, b, e) == Inner(pre, b, e)
  {
    hide IndexOf;
    var i := IndexOf(pre, b, 0).value;
    var j := IndexOf(pre, e, i + |b|).value;
    IndexOfInThree(pre, mid, post, b, 0);
    IndexOfInThree(pre, mid, post, e, i + |b|);
    SliceOfConcat(pre + mid, post, i + |b|, j);
    SliceOfConcat(pre, mid, i + |b|, j);
  }

  lemma InnerAfter(pre: string, mid: string, post: string, b: string, e: string)
    requires IsMarker(b) && IsMarker(e) && Sealed(mid, post) && !Occurs(mid, b) && !Occurs(mid, e)
    requires Absent(pre, b) && !Absent(post, b)
    ensures Inner(pre + mid + post, b, e) == Inner(post, b, e)
  {
    hide IndexOf;
    var off := |pre + mid|;
    var i := IndexOf(post, b, 0).value;
    IndexOfInThree(pre, mid, post, b, 0);
    IndexOfInThree(pre, mid, post, e, off + i + |b|);
    var j := IndexOf(post, e, i + |b|);
    if j.Some? {
      SliceOfConcat(pre + mid, post, i + |b|, j.value);
    }
  }

  /** A pair with no marker between its two cannot reach over a part that begins with one. */
  lemma PairDoesNotSpan(pre: string, mid: string, post: string, first: string, b: string, e: string, ms: set<string>)
    requires IsMarker(b) && IsMarker(e) && Sealed(mid, post) && !Occurs(mid, b) && !Occurs(mid, e)
    requires first in ms && StartsWith(mid, first)
    requires PairOk(pre + mid + post, b, e, ms)
    ensures !Dangling(pre, b, e)
  {
    hide IndexOf;
    if Dangling(pre, b, e) {
      var s := pre + mid + post;
      IndexOfInThree(pre, mid, post, b, 0);
      var from := IndexOf(pre, b, 0).value + |b|;
      IndexOfInThree(pre, mid, post, e, from);
      var j := IndexOf(s, e, from).value;
      SliceHolds(s, first, |pre|, from, j);
    }
  }

  lemma SliceHolds(s: string, m: string, p: nat, from: nat, to: nat)
    requires OccursAt(s, m, p) && from <= p && p + |m| <= to <= |s|
    ensures Occurs(s[from..to], m)
  {
    assert OccursAt(s[from..to], m, p - from);
  }

  lemma BlockFree(begin: string, end: string, inner: string, m: string)
    requires IsMarker(begin) && IsMarker(end) && IsMarker(m) && m != begin && m != end && !Occurs(inner, m)
    ensures !Occurs(begin + inner + end, m)
  {
    forall k ensures !OccursAt(begin + inner + end, m, k) {
      OccursConcat(begin + inner, end, m, k);
      OccursConcat(begin, inner, m, k);
    }
  }

  lemma InnerOfTrimEnd(body: string, b: string, e: string)
    requires IsMarker(b) && IsMarker(e)
    ensures Inner(TrimEnd(body), b, e) == Inner(body, b, e)
    ensures Absent(TrimEnd(body), b) <==> Absent(body, b)
  {
    hide IndexOf;
    SameIndexOfTrimEnd(body, b, 0);
    if !Absent(body, b) {
      var from := IndexOf(body, b, 0).value + |b|;
      SameIndexOfTrimEnd(body, e, from);
      var j := IndexOf(TrimEnd(body), e, from);
      if j.Some? {
        var tail := TrimEndSplit(body);
        SliceOfConcat(TrimEnd(body), tail, from, j.value);
      }
    }
  }

  lemma SameIndexOfTrimEnd(body: string, m: string, from: nat)
    requires IsMarker(m)
    ensures IndexOf(TrimEnd(body), m, from) == IndexOf(body, m, from)
  {
    forall k ensures OccursAt(body, m, k) <==> OccursAt(TrimEnd(body), m, k) { OccursTrimEnd(body, m, k); }
    IndexOfFirst(body, m, from);
    IndexOfIs(TrimEnd(body), m, from, IndexOf(body, m, from));
  }

  lemma NewBlockFree(begin: string, end: string, r: string, m: string)
    requires IsMarker(begin) && IsMarker(end) && IsMarker(m) && m != begin && m != end && !Occurs(r, m)
    ensures !Occurs(BlockOf(begin, end, r), m)
  {
    hide Occurs;
    PaddedFree(r, m);
    BlockShape(begin, end, r);
    BlockFree(begin, end, "\n" + r + "\n", m);
  }

  /** Replacing one block keeps every other pair: what lies between it, and whether it is there. */
  lemma ReplaceKeepsOthers(body: string, begin: string, end: string, r: string, b: string, e: string, ms: set<string>)
    requires forall m :: m in ms ==> IsMarker(m) && !Occurs(r, m)
    requires {begin, end, b, e} <= ms && {begin, end} !! {b, e}
    requires PairOk(body, begin, end, ms) && PairOk(body, b, e, ms)
    ensures Inner(ReplaceBetween(body, begin, end, r), b, e) == Inner(body, b, e)
    ensures Absent(ReplaceBetween(body, begin, end, r), b) <==> Absent(body, b)
  {
    hide IndexOf, OccursAt, Occurs;
    NewBlockFree(begin, end, r, b);
    NewBlockFree(begin, end, r, e);
    if Absent(body, begin) {
      AppendKeepsOthers(body, BlockOf(begin, end, r), b, e);
    } else {
      hide *;
      ReplaceInPlaceKeepsOthers(body, begin, end, r, b, e, ms);
    }
  }

  lemma ReplaceInPlaceKeepsOthers(body: string, begin: string, end: string, r: string,
                                  b: string, e: string, ms: set<string>)
    requires IsMarker(begin) && IsMarker(end) && IsMarker(b) && IsMarker(e)
    requires begin in ms && b in ms && e in ms && {begin, end} !! {b, e}
    requires !Occurs(BlockOf(begin, end, r), b) && !Occurs(BlockOf(begin, end, r), e)
    requires !Absent(body, begin) && PairOk(body, begin, end, ms) && PairOk(body, b, e, ms)
    ensures Inner(ReplaceBetween(body, begin, end, r), b, e) == Inner(body, b, e)
    ensures Absent(ReplaceBetween(body, begin, end, r), b) <==> Absent(body, b)
  {
    hide IndexOf, OccursAt, Occurs, ReplaceBetween, Before, After, Inner;
    var inner := Inner(body, begin, end).value;
    var pre, post := Before(body, begin, end), After(body, begin, end);
    BodyFrame(body, begin, end);
    ReplaceFrame(body, begin, end, r);
    BlockFree(begin, end, inner, b);
    BlockFree(begin, end, inner, e);
    PairDoesNotSpan(pre, begin + inner + end, post, begin, b, e, ms);
    InnerOfThree(pre, begin + inner + end, post, b, e);
    InnerOfThree(pre, BlockOf(begin, end, r), post, b, e);
  }

  lemma ReplaceKeepsExtracted(body: string, begin: string, end: string, r: string,
                              b: string, e: string, ms: set<string>)
    requires forall m :: m in ms ==> IsMarker(m) && !Occurs(r, m)
    requires {begin, end, b, e} <= ms && {begin, end} !! {b, e}
    requires PairOk(body, begin, end, ms) && PairOk(body, b, e, ms)
    ensures ExtractBetween(ReplaceBetween(body, begin, end, r), b, e) == ExtractBetween(body, b, e)
  {
    hide *;
    ReplaceKeepsOthers(body, begin, end, r, b, e, ms);
    ExtractIsInner(body, b, e);
    ExtractIsInner(ReplaceBetween(body, begin, end, r), b, e);
  }

  lemma ExtractIsInner(body: string, b: string, e: string)
    ensures ExtractBetween(body, b, e)
            == if Inner(body, b, e) == None then None else Some(Trim(Inner(body, b, e).value))
  {
    hide IndexOf, Trim;
  }

  lemma AppendKeepsOthers(body: string, block: string, b: string, e: string)
    requires IsMarker(b) && IsMarker(e) && !Dangling(body, b, e)
    requires block != "" && block[0] == '<' && !Occurs(block, b) && !Occurs(block, e)
    ensures Inner(TrimEnd(body) + "\n\n" + block + "\n", b, e) == Inner(body, b, e)
    ensures Absent(TrimEnd(body) + "\n\n" + block + "\n", b) <==> Absent(body, b)
  {
    hide IndexOf;
    var mid := "\n\n" + block + "\n";
    AppendedShape(TrimEnd(body), block);
    assert TrimEnd(body) + mid == TrimEnd(body) + mid + "";
    forall m, k | m == b || m == e ensures !OccursAt(mid, m, k) {
      OccursConcat("\n\n" + block, "\n", m, k);
      OccursConcat("\n\n", block, m, k);
    }
    InnerOfTrimEnd(body, b, e);
    InnerOfThree(TrimEnd(body), mid, "", b, e);
  }

  lemma ReplaceKeepsPairs(body: string, begin: string, end: string, r: string, ms: set<string>)
    requires forall m :: m in ms ==> IsMarker(m) && !Occurs(r, m)
    requires {begin, end} <= ms && begin != end && PairOk(body, begin, end, ms)
    ensures PairOk(ReplaceBetween(body, begin, end, r), begin, end, ms)
    ensures Inner(ReplaceBetween(body, begin, end, r), begin, end) == Some("\n" + r + "\n")
    ensures forall b, e :: {b, e} <= ms && {begin, end} !! {b, e} && PairOk(body, b, e, ms) ==>
              PairOk(ReplaceBetween(body, begin, end, r), b, e, ms)
  {
    hide IndexOf;
    ExtractAfterReplace(body, begin, end, r);
    forall m | m in ms ensures !Occurs("\n" + r + "\n", m) { PaddedFree(r, m); }
    forall b, e | {b, e} <= ms && {begin, end} !! {b, e} && PairOk(body, b, e, ms)
      ensures PairOk(ReplaceBetween(body, begin, end, r), b, e, ms)
    {
      ReplaceKeepsOthers(body, begin, end, r, b, e, ms);
    }
  }

  /** Writing what is already there changes nothing. */
  lemma ReplaceSame(body: string, begin: string, end: string, r: string)
    requires Inner(body, begin, end) == Some("\n" + r + "\n")
    ensures ReplaceBetween(body, begin, end, r) == body
  {
    hide IndexOf;
    BodyFrame(body, begin, end);
    ReplaceFrame(body, begin, end, r);
    BlockShape(begin, end, r);
  }

  lemma BlockShape(begin: string, end: string, r: string)
    ensures BlockOf(begin, end, r) == begin + ("\n" + r + "\n") + end
  {
  }

  lemma ReplaceWritten(pre: string, begin: string, end: string, r1: string, r2: string, post: string)
    requires IsMarker(begin) && IsMarker(end)
    requires !Occurs(pre, begin) && !Occurs(r1, end)
    ensures ReplaceBetween(pre + BlockOf(begin, end, r1) + post, begin, end, r2)
            == pre + BlockOf(begin, end, r2) + post
  {
    hide IndexOf, OccursAt;
    InnerOfBlock(pre, begin, end, r1, post);
    var s := pre + BlockOf(begin, end, r1) + post;
    assert s[..|pre|] == pre;
    assert s[|pre + BlockOf(begin, end, r1)|..] == post;
  }

  /** The last value written wins, and nothing of the first one is left. */
  lemma {:induction false} ReplaceTwice(body: string, begin: string, end: string, r1: string, r2: string)
    requires IsMarker(begin) && IsMarker(end) && begin != end
    requires !Occurs(r1, begin) && !Occurs(r1, end) && !Dangling(body, begin, end)
    ensures ReplaceBetween(ReplaceBetween(body, begin, end, r1), begin, end, r2)
            == ReplaceBetween(body, begin, end, r2)
  {
    hide IndexOf, OccursAt, ReplaceBetween, Before, After, Dangling;
    ReplaceFrame(body, begin, end, r1);
    ReplaceFrame(body, begin, end, r2);
    forall k ensures !OccursAt(Before(body, begin, end), begin, k) { BeforeHasNoBegin(body, begin, end, k); }
    ReplaceWritten(Before(body, begin, end), begin, end, r1, r2, After(body, begin, end));
  }
}
