/** The Levenshtein distance of the fragment injector, its optimality over all edit scripts,
    the metric laws, and the choice of the closest agent name. */
module EditDistance {
  import opened Wrappers

  // ----- the independent definition: scripts of single-character edits at any position -----

  datatype Edit = Insert(pos: nat, c: char) | Delete(pos: nat) | Substitute(pos: nat, c: char)

  predicate Applicable(e: Edit, s: string) {
    match e
    case Insert(p, _) => p <= |s|
    case Delete(p) => p < |s|
    case Substitute(p, _) => p < |s|
  }

  function Apply(e: Edit, s: string): string
    requires Applicable(e, s)
  {
    match e
    case Insert(p, c) => s[..p] + [c] + s[p..]
    case Delete(p) => s[..p] + s[p + 1..]
    case Substitute(p, c) => s[..p] + [c] + s[p + 1..]
  }

  predicate Transforms(script: seq<Edit>, a: string, b: string) {
    if script == [] then a == b
    else Applicable(script[0], a) && Transforms(script[1..], Apply(script[0], a), b)
  }

  /** d is the length of a shortest script that turns a into b. */
  ghost predicate IsEditDistance(a: string, b: string, d: nat) {
    && (exists script :: Transforms(script, a, b) && |script| == d)
    && (forall script :: Transforms(script, a, b) ==> d <= |script|)
  }

  // ----- the recurrence the matrix is filled by, with the shortcut on equal characters -----

  function Min3(x: nat, y: nat, z: nat): nat {
    if x <= y && x <= z then x else if y <= z then y else z
  }

  function Lev(a: string, b: string): nat
    decreases |a| + |b|
  {
    if a == [] then |b|
    else if b == [] then |a|
    else
      var a', b' := a[..|a| - 1], b[..|b| - 1];
      if b[|b| - 1] == a[|a| - 1] then Lev(a', b')
      else Min3(Lev(a', b') + 1, Lev(a', b) + 1, Lev(a, b') + 1)
  }

  lemma LevSnoc(a: string, c: char, b: string, d: char)
    ensures Lev(a + [c], b + [d]) ==
            if c == d then Lev(a, b)
            else Min3(Lev(a, b) + 1, Lev(a, b + [d]) + 1, Lev(a + [c], b) + 1)
  {
    assert (a + [c])[..|a|] == a && (b + [d])[..|b|] == b;
  }

  lemma Unsnoc(s: string) returns (init: string, last: char)
    requires s != []
    ensures s == init + [last] && |init| == |s| - 1
  {
    init, last := s[..|s| - 1], s[|s| - 1];
  }

  lemma {:induction false} LevSymmetric(a: string, b: string)
    ensures Lev(a, b) == Lev(b, a)
    decreases |a| + |b|
  {
    if a != [] && b != [] {
      var a', c := Unsnoc(a);
      var b', d := Unsnoc(b);
      LevSnoc(a', c, b', d);
      LevSnoc(b', d, a', c);
      LevSymmetric(a', b');
      LevSymmetric(a', b);
      LevSymmetric(a, b');
    }
  }

  /** One character more on either side changes the distance by at most one: without this the
      shortcut on equal characters could miss a cheaper script. */
  lemma {:induction false} LevGrow(a: string, c: char, b: string)
    ensures Lev(a + [c], b) <= Lev(a, b) + 1
    ensures Lev(a, b) <= Lev(a + [c], b) + 1
    decreases |a| + |b|
  {
    if b != [] {
      var b', d := Unsnoc(b);
      LevSnoc(a, c, b', d);
      LevGrow(a, c, b');
      LevGrowRight(a, b', d);
    }
  }

  lemma {:induction false} LevGrowRight(a: string, b: string, d: char)
    ensures Lev(a, b + [d]) <= Lev(a, b) + 1
    ensures Lev(a, b) <= Lev(a, b + [d]) + 1
    decreases |a| + |b|, 0
  {
    if a != [] {
      var a', e := Unsnoc(a);
      LevSnoc(a', e, b, d);
      LevGrow(a', e, b);
      LevGrowRight(a', b, d);
    }
  }

  lemma {:induction false} LevReplaceLast(a: string, c: char, e: char, b: string)
    ensures Lev(a + [c], b) <= Lev(a + [e], b) + 1
    decreases |b|
  {
    if b != [] {
      var b', d := Unsnoc(b);
      LevSnoc(a, c, b', d);
      LevSnoc(a, e, b', d);
      LevReplaceLast(a, c, e, b');
      LevGrow(a, c, b');
      LevGrow(a, e, b');
      LevGrowRight(a, b', d);
    }
  }

  lemma ApplyBefore(e: Edit, a: string, tail: string)
    requires Applicable(e, a)
    ensures Applicable(e, a + tail) && Apply(e, a + tail) == Apply(e, a) + tail
  {
    assert (a + tail)[..e.pos] == a[..e.pos];
    if e.Insert? {
      assert (a + tail)[e.pos..] == a[e.pos..] + tail;
    } else {
      assert (a + tail)[e.pos + 1..] == a[e.pos + 1..] + tail;
    }
  }

  /** An edit that reaches the last character of a. */
  lemma EditAtEnd(e: Edit, a: string, z: char, b: string)
    requires Applicable(e, a + [z]) && !Applicable(e, a)
    ensures Lev(a + [z], b) <= Lev(Apply(e, a + [z]), b) + 1
  {
    hide Lev;
    match e
    case Insert(p, c) =>
      assert Apply(e, a + [z]) == a + [z] + [c];
      LevGrow(a + [z], c, b);
    case Delete(p) =>
      assert Apply(e, a + [z]) == a;
      LevGrow(a, z, b);
    case Substitute(p, c) =>
      assert Apply(e, a + [z]) == a + [c];
      LevReplaceLast(a, z, c, b);
  }

  lemma LevOfNothing(a: string)
    ensures Lev(a, "") == |a| && Lev("", a) == |a|
  {
  }

  lemma ApplyLength(e: Edit, a: string)
    requires Applicable(e, a)
    ensures |a| <= |Apply(e, a)| + 1
  {
  }

  /** Editing anywhere in a lowers the distance to b by at most one. */
  lemma {:induction false} EditLowersByAtMostOne(e: Edit, a: string, b: string)
    requires Applicable(e, a)
    ensures Lev(a, b) <= Lev(Apply(e, a), b) + 1
    decreases |a| + |b|
  {
    if a == [] {
      LevGrow(a, e.c, b);
      assert Apply(e, a) == a + [e.c];
    } else if b == [] {
      LevOfNothing(a);
      LevOfNothing(Apply(e, a));
      ApplyLength(e, a);
    } else {
      hide Lev, Apply, Applicable;
      var a', z := Unsnoc(a);
      if Applicable(e, a') {
        ApplyBefore(e, a', [z]);
        var b', w := Unsnoc(b);
        LevSnoc(a', z, b', w);
        LevSnoc(Apply(e, a'), z, b', w);
        EditLowersByAtMostOne(e, a', b');
        EditLowersByAtMostOne(e, a', b);
        EditLowersByAtMostOne(e, a, b');
      } else {
        EditAtEnd(e, a', z, b);
      }
    }
  }

  lemma {:induction false} LevIsLowerBound(script: seq<Edit>, a: string, b: string)
    requires Transforms(script, a, b)
    ensures Lev(a, b) <= |script|
  {
    if script == [] {
      LevSelf(a);
    } else {
      LevIsLowerBound(script[1..], Apply(script[0], a), b);
      EditLowersByAtMostOne(script[0], a, b);
    }
  }

  lemma {:induction false} LevSelf(a: string)
    ensures Lev(a, a) == 0
  {
    if a != [] { LevSelf(a[..|a| - 1]); }
  }

  // ----- a script of that length exists -----

  lemma {:induction false} TransformsBefore(script: seq<Edit>, a: string, b: string, tail: string)
    requires Transforms(script, a, b)
    ensures Transforms(script, a + tail, b + tail)
  {
    if script != [] {
      ApplyBefore(script[0], a, tail);
      TransformsBefore(script[1..], Apply(script[0], a), b, tail);
    }
  }

  lemma TransformsFirst(e: Edit, script: seq<Edit>, a: string, b: string)
    ensures Transforms([e] + script, a, b) <==> Applicable(e, a) && Transforms(script, Apply(e, a), b)
  {
    hide Apply, Applicable;
    assert ([e] + script)[1..] == script;
  }

  lemma ConsAppend<T>(p: seq<T>, q: seq<T>)
    requires p != []
    ensures p == [p[0]] + p[1..] && p + q == [p[0]] + (p[1..] + q)
  {
  }

  lemma NoEdits(a: string, b: string)
    ensures Transforms([], a, b) <==> a == b
  {
  }

  lemma {:induction false} TransformsThen(p: seq<Edit>, q: seq<Edit>, a: string, b: string, c: string)
    requires Transforms(p, a, b) && Transforms(q, b, c)
    ensures Transforms(p + q, a, c)
  {
    hide *;
    if p == [] {
      NoEdits(a, b);
      assert p + q == q;
    } else {
      var e, rest := p[0], p[1..];
      ConsAppend(p, q);
      TransformsFirst(e, rest, a, b);
      TransformsThen(rest, q, Apply(e, a), b, c);
      TransformsFirst(e, rest + q, a, c);
    }
  }

  /** The script p turns a into b, and one more edit turns b into c. */
  lemma {:induction false} ThenEdit(p: seq<Edit>, e: Edit, a: string, b: string, c: string) returns (script: seq<Edit>)
    requires Transforms(p, a, b) && Applicable(e, b) && Apply(e, b) == c
    ensures Transforms(script, a, c) && |script| == |p| + 1
  {
    hide *;
    script := p + [e];
    NoEdits(c, c);
    TransformsFirst(e, [], b, c);
    assert [e] + [] == [e];
    TransformsThen(p, [e], a, b, c);
  }

  lemma ThenInsert(p: seq<Edit>, a: string, b: string, w: char) returns (script: seq<Edit>)
    requires Transforms(p, a, b)
    ensures Transforms(script, a, b + [w]) && |script| == |p| + 1
  {
    hide Transforms;
    assert Apply(Insert(|b|, w), b) == b + [w];
    script := ThenEdit(p, Insert(|b|, w), a, b, b + [w]);
  }

  lemma ThenDelete(p: seq<Edit>, a: string, z: char, b: string) returns (script: seq<Edit>)
    requires Transforms(p, a, b)
    ensures Transforms(script, a + [z], b) && |script| == |p| + 1
  {
    TransformsBefore(p, a, b, [z]);
    hide Transforms;
    assert Apply(Delete(|b|), b + [z]) == b;
    script := ThenEdit(p, Delete(|b|), a + [z], b + [z], b);
  }

  lemma ThenSubstitute(p: seq<Edit>, a: string, z: char, b: string, w: char) returns (script: seq<Edit>)
    requires Transforms(p, a, b)
    ensures Transforms(script, a + [z], b + [w]) && |script| == if z == w then |p| else |p| + 1
  {
    TransformsBefore(p, a, b, [z]);
    hide Transforms;
    script := p;
    if z != w {
      assert Apply(Substitute(|b|, w), b + [z]) == b + [w];
      script := ThenEdit(p, Substitute(|b|, w), a + [z], b + [z], b + [w]);
    }
  }

  lemma {:induction false} ShortestScript(a: string, b: string) returns (script: seq<Edit>)
    ensures Transforms(script, a, b) && |script| == Lev(a, b)
    decreases |a| + |b|
  {
    hide Transforms, Lev;
    if a == [] && b == [] {
      script := [];
      NoEdits(a, b);
      LevOfNothing(a);
    } else if a == [] {
      var b', w := Unsnoc(b);
      LevOfNothing(b);
      LevOfNothing(b');
      script := ShortestScript(a, b');
      script := ThenInsert(script, a, b', w);
    } else if b == [] {
      var a', z := Unsnoc(a);
      LevOfNothing(a);
      LevOfNothing(a');
      script := ShortestScript(a', b);
      script := ThenDelete(script, a', z, b);
    } else {
      var a', z := Unsnoc(a);
      var b', w := Unsnoc(b);
      LevSnoc(a', z, b', w);
      if z != w && Lev(a, b) == Lev(a, b') + 1 {
        script := ShortestScript(a, b');
        script := ThenInsert(script, a, b', w);
      } else if z != w && Lev(a, b) == Lev(a', b) + 1 {
        script := ShortestScript(a', b);
        script := ThenDelete(script, a', z, b);
      } else {
        script := ShortestScript(a', b');
        script := ThenSubstitute(script, a', z, b', w);
      }
    }
  }

  /** The recurrence is exactly the least number of edits. */
  lemma {:induction false} LevIsEditDistance(a: string, b: string)
    ensures IsEditDistance(a, b, Lev(a, b))
  {
    var p := ShortestScript(a, b);
    forall script | Transforms(script, a, b) ensures Lev(a, b) <= |script| {
      LevIsLowerBound(script, a, b);
    }
  }

  // ----- metric laws -----

  lemma {:induction false} ZeroOnlyForEqual(a: string, b: string)
    ensures Lev(a, b) == 0 <==> a == b
  {
    LevSelf(a);
    var p := ShortestScript(a, b);
  }

  lemma {:induction false} TriangleInequality(a: string, b: string, c: string)
    ensures Lev(a, c) <= Lev(a, b) + Lev(b, c)
  {
    var p := ShortestScript(a, b);
    var q := ShortestScript(b, c);
    TransformsThen(p, q, a, b, c);
    LevIsLowerBound(p + q, a, c);
  }

  lemma {:induction false} LengthBounds(a: string, b: string)
    ensures |a| - |b| <= Lev(a, b) && |b| - |a| <= Lev(a, b)
    ensures Lev(a, b) <= if |a| < |b| then |b| else |a|
    decreases |a| + |b|
  {
    if a != [] && b != [] {
      LengthBounds(a[..|a| - 1], b[..|b| - 1]);
      LengthBounds(a[..|a| - 1], b);
      LengthBounds(a, b[..|b| - 1]);
    }
  }

  // ----- the matrix, filled in place -----

  /** The distance of the first j characters of a and the first i of b. */
  function PrefixLev(a: string, j: nat, b: string, i: nat): nat
    requires j <= |a| && i <= |b|
  {
    Lev(a[..j], b[..i])
  }

  /** Row i of the matrix belongs to b[..i], column j to a[..j]. */
  ghost predicate RowsFilled(matrix: array2<nat>, a: string, b: string, rows: nat)
    requires matrix.Length0 == |b| + 1 && matrix.Length1 == |a| + 1 && rows <= |b| + 1
    reads matrix
  {
    forall i, j :: 0 <= i < rows && 0 <= j <= |a| ==> matrix[i, j] == PrefixLev(a, j, b, i)
  }

  ghost predicate FirstColumn(matrix: array2<nat>)
    requires matrix.Length1 > 0
    reads matrix
  {
    forall i :: 0 <= i < matrix.Length0 ==> matrix[i, 0] == i
  }

  method InitLevenshteinMatrix(aLen: nat, bLen: nat) returns (matrix: array2<nat>)
    ensures fresh(matrix) && matrix.Length0 == bLen + 1 && matrix.Length1 == aLen + 1
    ensures FirstColumn(matrix)
    ensures forall j :: 0 <= j <= aLen ==> matrix[0, j] == j
  {
    matrix := new nat[bLen + 1, aLen + 1];
    for i := 0 to bLen + 1
      invariant forall k :: 0 <= k < i ==> matrix[k, 0] == k
    {
      matrix[i, 0] := i;
    }
    for j := 0 to aLen + 1
      invariant FirstColumn(matrix)
      invariant forall k :: 0 <= k < j ==> matrix[0, k] == k
    {
      matrix[0, j] := j;
    }
  }

  method FillLevenshteinRow(matrix: array2<nat>, a: string, ghost b: string, bChar: char, i: nat)
    requires matrix.Length0 == |b| + 1 && matrix.Length1 == |a| + 1
    requires 1 <= i <= |b| && bChar == b[i - 1]
    requires FirstColumn(matrix) && RowsFilled(matrix, a, b, i)
    modifies matrix
    ensures FirstColumn(matrix) && RowsFilled(matrix, a, b, i + 1)
  {
    hide PrefixLev;
    EmptyPrefix(a, b, i);
    for j := 1 to |a| + 1
      invariant FirstColumn(matrix) && RowsFilled(matrix, a, b, i)
      invariant forall k :: 0 <= k < j ==> matrix[i, k] == PrefixLev(a, k, b, i)
    {
      var cost := if bChar == a[j - 1] then 0 else 1;
      PrefixStep(a, j, b, i);
      assert matrix[i - 1, j - 1] == PrefixLev(a, j - 1, b, i - 1);
      assert matrix[i, j - 1] == PrefixLev(a, j - 1, b, i);
      assert matrix[i - 1, j] == PrefixLev(a, j, b, i - 1);
      matrix[i, j] :=
        if cost == 0 then matrix[i - 1, j - 1]
        else Min3(matrix[i - 1, j - 1] + 1, matrix[i, j - 1] + 1, matrix[i - 1, j] + 1);
    }
  }

  lemma EmptyPrefix(a: string, b: string, i: nat)
    requires i <= |b|
    ensures PrefixLev(a, 0, b, i) == i
  {
  }

  lemma PrefixStep(a: string, j: nat, b: string, i: nat)
    requires 1 <= j <= |a| && 1 <= i <= |b|
    ensures PrefixLev(a, j, b, i) ==
            if b[i - 1] == a[j - 1] then PrefixLev(a, j - 1, b, i - 1)
            else Min3(PrefixLev(a, j - 1, b, i - 1) + 1, PrefixLev(a, j - 1, b, i) + 1, PrefixLev(a, j, b, i - 1) + 1)
  {
    assert a[..j] == a[..j - 1] + [a[j - 1]] && b[..i] == b[..i - 1] + [b[i - 1]];
    LevSnoc(a[..j - 1], a[j - 1], b[..i - 1], b[i - 1]);
    hide Lev;
  }

  /** What the filled matrix holds in its last cell; by LevIsEditDistance, the least number of edits. */
  method LevenshteinDistance(a: string, b: string) returns (d: nat)
    ensures d == Lev(a, b)
  {
    var matrix := InitLevenshteinMatrix(|a|, |b|);
    for i := 1 to |b| + 1
      invariant FirstColumn(matrix) && RowsFilled(matrix, a, b, i)
    {
      FillLevenshteinRow(matrix, a, b, b[i - 1], i);
    }
    d := matrix[|b|, |a|];
    assert a[..|a|] == a && b[..|b|] == b;
  }

  // ----- closest agent name -----

  predicate Qualifies(unknown: string, known: string) {
    Lev(unknown, known) <= (|known| + 1) / 2
  }

  /** Among the first n agents, agent i qualifies and is the first of the closest ones. */
  ghost predicate FirstClosest(unknown: string, agents: seq<string>, n: nat, i: nat)
    requires n <= |agents|
  {
    && i < n && Qualifies(unknown, agents[i])
    && (forall j :: 0 <= j < n && Qualifies(unknown, agents[j]) ==>
          Lev(unknown, agents[i]) <= Lev(unknown, agents[j]))
    && (forall j :: 0 <= j < i && Qualifies(unknown, agents[j]) ==>
          Lev(unknown, agents[i]) < Lev(unknown, agents[j]))
  }

  lemma NextAgent(unknown: string, agents: seq<string>, n: nat, at: nat)
    requires n < |agents| && FirstClosest(unknown, agents, n, at)
    ensures if Lev(unknown, agents[n]) < Lev(unknown, agents[at]) && Qualifies(unknown, agents[n])
            then FirstClosest(unknown, agents, n + 1, n)
            else FirstClosest(unknown, agents, n + 1, at)
  {
  }

  /** The agents come from a Set, which is walked in insertion order. None in closest stands for
      the infinite minDistance the loop starts from. */
  method FindClosestAgent(unknown: string, knownAgents: seq<string>) returns (closest: Option<string>)
    ensures closest == None <==> forall k :: k in knownAgents ==> !Qualifies(unknown, k)
    ensures closest.Some? ==>
              exists i: nat :: FirstClosest(unknown, knownAgents, |knownAgents|, i) && knownAgents[i] == closest.value
  {
    closest := None;
    var minDistance := 0;
    ghost var at: nat := 0;
    for n := 0 to |knownAgents|
      invariant closest == None ==> forall j :: 0 <= j < n ==> !Qualifies(unknown, knownAgents[j])
      invariant closest.Some? ==>
                  && FirstClosest(unknown, knownAgents, n, at)
                  && closest.value == knownAgents[at] && minDistance == Lev(unknown, knownAgents[at])
    {
      var known := knownAgents[n];
      if closest.Some? { NextAgent(unknown, knownAgents, n, at); }
      var distance := LevenshteinDistance(unknown, known);
      if (closest == None || distance < minDistance) && distance <= (|known| + 1) / 2 {
        minDistance := distance;
        closest := Some(known);
        at := n;
      }
    }
    if closest.Some? {
      assert Qualifies(unknown, closest.value) && closest.value in knownAgents;
    }
  }
}
