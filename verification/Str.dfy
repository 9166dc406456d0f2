/** The string operations the source takes from JavaScript, with the laws the models need.
    A string is a sequence of characters. */
module Str {
  import opened Wrappers

  // ----- white space and trim -----

  /** The white space and line terminators that trim and \s drop in JavaScript. */
  predicate IsSpace(c: char) {
    || c == ' ' || c == '\n' || c == '\t' || c == '\r' || c == '\U{000B}' || c == '\U{000C}'
    || c == '\U{00A0}' || c == '\U{1680}' || '\U{2000}' <= c <= '\U{200A}' || c == '\U{2028}'
    || c == '\U{2029}' || c == '\U{202F}' || c == '\U{205F}' || c == '\U{3000}' || c == '\U{FEFF}'
  }

  predicate AllSpace(s: string) {
    forall i :: 0 <= i < |s| ==> IsSpace(s[i])
  }

  predicate NoSpace(s: string) {
    forall i :: 0 <= i < |s| ==> !IsSpace(s[i])
  }

  predicate Trimmed(s: string) {
    s != "" ==> !IsSpace(s[0]) && !IsSpace(s[|s| - 1])
  }

  function TrimStart(s: string): string {
    if s != "" && IsSpace(s[0]) then TrimStart(s[1..]) else s
  }

  function TrimEnd(s: string): string {
    if s != "" && IsSpace(s[|s| - 1]) then TrimEnd(s[..|s| - 1]) else s
  }

  function Trim(s: string): string {
    TrimEnd(TrimStart(s))
  }

  lemma {:induction false} TrimEndSplit(s: string) returns (tail: string)
    ensures s == TrimEnd(s) + tail && AllSpace(tail)
    ensures TrimEnd(s) != "" ==> !IsSpace(TrimEnd(s)[|TrimEnd(s)| - 1])
  {
    if s != "" && IsSpace(s[|s| - 1]) {
      tail := TrimEndSplit(s[..|s| - 1]);
      tail := tail + [s[|s| - 1]];
    } else {
      tail := "";
    }
  }

  lemma {:induction false} TrimStartSplit(s: string) returns (head: string)
    ensures s == head + TrimStart(s) && AllSpace(head)
    ensures TrimStart(s) != "" ==> !IsSpace(TrimStart(s)[0])
  {
    if s != "" && IsSpace(s[0]) {
      head := TrimStartSplit(s[1..]);
      head := [s[0]] + head;
    } else {
      head := "";
    }
  }

  lemma {:induction false} TrimStartPadded(pad: string, s: string)
    requires AllSpace(pad)
    ensures TrimStart(pad + s) == TrimStart(s)
  {
    if pad == "" {
      assert pad + s == s;
    } else {
      assert (pad + s)[1..] == pad[1..] + s;
      TrimStartPadded(pad[1..], s);
    }
  }

  lemma {:induction false} TrimEndPadded(s: string, pad: string)
    requires AllSpace(pad)
    ensures TrimEnd(s + pad) == TrimEnd(s)
  {
    if pad == "" {
      assert s + pad == s;
    } else {
      assert (s + pad)[..|s + pad| - 1] == s + pad[..|pad| - 1];
      TrimEndPadded(s, pad[..|pad| - 1]);
    }
  }

  /** What trim leaves is found by stripping any white space around it. */
  lemma TrimPadded(left: string, s: string, right: string)
    requires AllSpace(left) && AllSpace(right)
    ensures Trim(left + s + right) == Trim(s)
  {
    assert left + s + right == left + (s + right);
    TrimStartPadded(left, s + right);
    var head := TrimStartSplit(s);
    if TrimStart(s) == "" {
      var all := s + right;
      assert AllSpace(all);
      TrimStartPadded(all, "");
      assert all + "" == all;
    } else {
      assert s + right == head + (TrimStart(s) + right);
      TrimStartPadded(head, TrimStart(s) + right);
      TrimEndPadded(TrimStart(s), right);
    }
  }

  lemma TrimIsTrimmed(s: string)
    ensures Trimmed(Trim(s))
  {
    var head := TrimStartSplit(s);
    var tail := TrimEndSplit(TrimStart(s));
    assert Trim(s) != "" ==> Trim(s)[0] == TrimStart(s)[0];
  }

  lemma TrimSplit(s: string) returns (head: string, tail: string)
    ensures s == head + Trim(s) + tail && AllSpace(head) && AllSpace(tail)
  {
    head := TrimStartSplit(s);
    tail := TrimEndSplit(TrimStart(s));
  }

  // ----- substring search -----

  predicate OccursAt(s: string, pat: string, i: int) {
    0 <= i <= |s| - |pat| && forall j {:trigger pat[j]} :: 0 <= j < |pat| ==> s[i + j] == pat[j]
  }

  ghost predicate Occurs(s: string, pat: string) {
    exists i :: OccursAt(s, pat, i)
  }

  /** The first occurrence at or after from. */
  function IndexOf(s: string, pat: string, from: nat): (r: Option<nat>)
    ensures r.Some? ==> from <= r.value && OccursAt(s, pat, r.value)
    decreases |s| - from
  {
    if from + |pat| > |s| then None
    else if OccursAt(s, pat, from) then Some(from)
    else IndexOf(s, pat, from + 1)
  }

  lemma {:induction false} IndexOfFirst(s: string, pat: string, from: nat)
    ensures IndexOf(s, pat, from).Some? ==>
              forall k :: from <= k < IndexOf(s, pat, from).value ==> !OccursAt(s, pat, k)
    ensures IndexOf(s, pat, from).None? ==> forall k :: from <= k ==> !OccursAt(s, pat, k)
    decreases |s| - from
  {
    if from + |pat| <= |s| && !OccursAt(s, pat, from) {
      IndexOfFirst(s, pat, from + 1);
    }
  }

  lemma IndexOfIs(s: string, pat: string, from: nat, r: Option<nat>)
    requires r.Some? ==> from <= r.value && OccursAt(s, pat, r.value)
    requires r.Some? ==> forall k :: from <= k < r.value ==> !OccursAt(s, pat, k)
    requires r.None? ==> forall k :: from <= k ==> !OccursAt(s, pat, k)
    ensures IndexOf(s, pat, from) == r
  {
    IndexOfFirst(s, pat, from);
  }

  lemma SliceOfSlice(s: string, from: nat, to: nat, p: nat, q: nat)
    requires p <= q && from + q <= to <= |s|
    ensures s[from..to][p..q] == s[from + p..from + q]
  {
    assert forall k :: 0 <= k < q - p ==> s[from..to][p..q][k] == s[from + p..from + q][k];
  }

  lemma SliceOfConcat(x: string, y: string, from: nat, to: nat)
    requires from <= to
    ensures to <= |x| ==> (x + y)[from..to] == x[from..to]
    ensures to <= |y| ==> (x + y)[|x| + from..|x| + to] == y[from..to]
  {
  }

  // ----- lines and cells -----

  function Split(s: string, sep: char): (parts: seq<string>)
    ensures |parts| > 0
  {
    if s == "" then [""]
    else
      var rest := Split(s[1..], sep);
      if s[0] == sep then [""] + rest else [[s[0]] + rest[0]] + rest[1..]
  }

  function Join(parts: seq<string>, sep: string): string {
    if parts == [] then ""
    else if |parts| == 1 then parts[0]
    else parts[0] + sep + Join(parts[1..], sep)
  }

  lemma {:induction false} SplitNone(s: string, sep: char)
    requires sep !in s
    ensures Split(s, sep) == [s]
  {
    if s != "" {
      SplitNone(s[1..], sep);
      assert [s[0]] + s[1..] == s;
    }
  }

  lemma {:induction false} SplitAt(a: string, sep: char, b: string)
    ensures Split(a + [sep] + b, sep) == Split(a, sep) + Split(b, sep)
  {
    if a == "" {
      assert (a + [sep] + b)[1..] == b;
    } else {
      assert (a + [sep] + b)[1..] == a[1..] + [sep] + b;
      SplitAt(a[1..], sep, b);
    }
  }

  lemma {:induction false} SplitJoin(parts: seq<string>, sep: char)
    requires parts != []
    requires forall i :: 0 <= i < |parts| ==> sep !in parts[i]
    ensures Split(Join(parts, [sep]), sep) == parts
  {
    SplitNone(parts[0], sep);
    if |parts| > 1 {
      SplitJoin(parts[1..], sep);
      SplitAt(parts[0], sep, Join(parts[1..], [sep]));
    }
  }

  lemma JoinCons(first: string, rest: seq<string>, sep: string)
    ensures Join([first] + rest, sep) == first + if rest == [] then "" else sep + Join(rest, sep)
  {
    assert ([first] + rest)[1..] == rest;
  }

  lemma {:induction false} JoinAppend(a: seq<string>, b: seq<string>, sep: string)
    requires a != [] && b != []
    ensures Join(a + b, sep) == Join(a, sep) + sep + Join(b, sep)
  {
    if |a| > 1 {
      assert (a + b)[1..] == a[1..] + b;
      JoinAppend(a[1..], b, sep);
    } else {
      assert (a + b)[1..] == b;
    }
  }

  lemma {:induction false} JoinSplit(s: string, sep: char)
    ensures Join(Split(s, sep), [sep]) == s
    ensures forall i :: 0 <= i < |Split(s, sep)| ==> sep !in Split(s, sep)[i]
  {
    if s != "" {
      JoinSplit(s[1..], sep);
      var rest := Split(s[1..], sep);
      JoinCons(rest[0], rest[1..], [sep]);
      assert [rest[0]] + rest[1..] == rest;
      JoinCons([s[0]] + rest[0], rest[1..], [sep]);
      JoinCons("", rest, [sep]);
      hide Join;
      assert s == [s[0]] + s[1..];
    }
  }

  function Map<A, B>(f: A -> B, xs: seq<A>): seq<B> {
    seq(|xs|, i requires 0 <= i < |xs| => f(xs[i]))
  }

  // ----- numbers in a base up to 36 -----

  function DigitChar(d: nat): char
    requires d < 36
  {
    if d < 10 then '0' + d as char else 'a' + (d - 10) as char
  }

  function DigitValue(c: char): int {
    if '0' <= c <= '9' then c as int - '0' as int else c as int - 'a' as int + 10
  }

  predicate IsDigit(c: char) {
    '0' <= c <= '9'
  }

  predicate AllDigits(s: string) {
    s != "" && forall i :: 0 <= i < |s| ==> IsDigit(s[i])
  }

  lemma QuotientSmaller(n: nat, base: nat)
    requires 2 <= base <= n
    ensures 0 <= n / base < n && 0 <= n % base < base
  {
    var q, r := n / base, n % base;
    assert n == q * base + r;
    assert q >= n ==> q * base >= q * 2;
  }

  function NatToBase(n: nat, base: nat): string
    requires 2 <= base <= 36
  {
    if n < base then [DigitChar(n)]
    else
      QuotientSmaller(n, base);
      NatToBase(n / base, base) + [DigitChar(n % base)]
  }

  function ValueInBase(s: string, base: nat): int {
    if s == "" then 0 else ValueInBase(s[..|s| - 1], base) * base + DigitValue(s[|s| - 1])
  }

  function NatToString(n: nat): string {
    NatToBase(n, 10)
  }

  lemma NatToBaseStep(n: nat, base: nat) returns (q: nat, r: nat)
    requires 2 <= base <= 36 && base <= n
    ensures r < base && q < n && n == q * base + r
    ensures NatToBase(n, base) == NatToBase(q, base) + [DigitChar(r)]
  {
    q, r := n / base, n % base;
  }

  lemma {:induction false} ValueOfNat(n: nat, base: nat)
    requires 2 <= base <= 36
    ensures ValueInBase(NatToBase(n, base), base) == n
  {
    if n < base {
      assert "" + [DigitChar(n)] == [DigitChar(n)];
    } else {
      var q, r := NatToBaseStep(n, base);
      ValueOfNat(q, base);
    }
  }

  lemma {:induction false} NatIsDigits(n: nat)
    ensures AllDigits(NatToString(n))
    ensures NoSpace(NatToString(n)) && '>' !in NatToString(n) && '\n' !in NatToString(n)
  {
    if n >= 10 { NatIsDigits(n / 10); }
  }

  // ----- prefixes -----

  predicate StartsWith(s: string, p: string) {
    p <= s
  }

  predicate EndsWith(s: string, p: string) {
    |p| <= |s| && s[|s| - |p|..] == p
  }
}
