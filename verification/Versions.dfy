/** Which installed versions satisfy a requirement (runtime-preflight.py).

    A release is the dotted number at the start of a version string; it has at least one
    component. */
module Versions {
  import opened PythonText
  import opened Sequences

  type Release = r: seq<nat> | r != [] witness [0]

  // --------------------------------------------------------------------- reading

  predicate IsDigit(c: char) { '0' <= c <= '9' }

  /** Length of the longest run of digits s starts with. */
  function Digits(s: string): (n: nat)
    ensures n <= |s| && forall i :: 0 <= i < n ==> IsDigit(s[i])
    ensures n < |s| ==> !IsDigit(s[n])
  {
    if s != [] && IsDigit(s[0]) then 1 + Digits(s[1..]) else 0
  }

  function DigitValue(c: char): nat { if IsDigit(c) then c as int - '0' as int else 0 }

  function Value(digits: string): nat {
    if digits == [] then 0 else Value(digits[..|digits| - 1]) * 10 + DigitValue(digits[|digits| - 1])
  }

  /** The longest dotted number s starts with. */
  function Dotted(s: string): Release
    requires Digits(s) > 0
    decreases |s|
  {
    var n := Digits(s);
    var rest := s[n..];
    [Value(s[..n])] + if |rest| > 1 && rest[0] == '.' && Digits(rest[1..]) > 0 then Dotted(rest[1..]) else []
  }

  function SkipBlanks(s: string): string {
    if s != [] && Whitespace(s[0]) then SkipBlanks(s[1..]) else s
  }

  /** _release: None where the code raises. */
  function ReleaseOf(s: string): Option<Release> {
    var t := SkipBlanks(s);
    if Digits(t) > 0 then Some(Dotted(t)) else None
  }

  function Decimal(n: nat): (s: string)
    ensures s != [] && forall c :: c in s ==> IsDigit(c)
  {
    (if n < 10 then [] else Decimal(n / 10)) + [(n % 10 + '0' as int) as char]
  }

  /** The dotted form of a release. */
  function Show(r: Release): string
    decreases |r|
  {
    if |r| == 1 then Decimal(r[0]) else Decimal(r[0]) + "." + Show(r[1..])
  }

  /** Text after a release that does not carry the dotted number on. */
  predicate Ends(rest: string) {
    && (rest != [] ==> !IsDigit(rest[0]))
    && (|rest| > 1 && rest[0] == '.' ==> !IsDigit(rest[1]))
  }

  lemma {:induction false} DecimalValue(n: nat)
    ensures Value(Decimal(n)) == n
  {
    var s := Decimal(n);
    assert s[..|s| - 1] == if n < 10 then [] else Decimal(n / 10);
    if n >= 10 { DecimalValue(n / 10); }
  }

  lemma {:induction false} DigitsRun(a: string, b: string)
    requires (forall c :: c in a ==> IsDigit(c)) && (b != [] ==> !IsDigit(b[0]))
    ensures Digits(a + b) == |a|
  {
    if a == [] {
      assert a + b == b;
    } else {
      assert (a + b)[1..] == a[1..] + b;
      DigitsRun(a[1..], b);
    }
  }

  lemma {:induction false} DottedReads(r: Release, rest: string)
    requires Ends(rest)
    ensures Digits(Show(r) + rest) > 0 && Dotted(Show(r) + rest) == r
    decreases |r|
  {
    DecimalValue(r[0]);
    if |r| == 1 {
      assert r == [r[0]];
      OneNumber(Decimal(r[0]), rest);
    } else {
      DottedReads(r[1..], rest);
      GoesOn(Decimal(r[0]), Show(r[1..]), rest);
      assert r == [r[0]] + r[1..];
    }
  }

  lemma GoesOn(first: string, second: string, rest: string)
    requires first != [] && (forall c :: c in first ==> IsDigit(c)) && Digits(second + rest) > 0
    ensures Digits(first + "." + second + rest) > 0
    ensures Dotted(first + "." + second + rest) == [Value(first)] + Dotted(second + rest)
  {
    var tail := "." + (second + rest);
    assert first + "." + second + rest == first + tail && tail[1..] == second + rest;
    OneNumber(first, tail);
  }

  /** The first number of a dotted number, and what decides whether it goes on. */
  lemma OneNumber(first: string, tail: string)
    requires first != [] && (forall c :: c in first ==> IsDigit(c)) && (tail != [] ==> !IsDigit(tail[0]))
    ensures Digits(first + tail) == |first|
    ensures Dotted(first + tail)
         == [Value(first)] + if |tail| > 1 && tail[0] == '.' && Digits(tail[1..]) > 0 then Dotted(tail[1..]) else []
  {
    DigitsRun(first, tail);
    assert (first + tail)[..|first|] == first && (first + tail)[|first|..] == tail;
  }

  /** Reading undoes writing: leading blanks and whatever follows the dotted number (a
      pre-release tag, a local part) are ignored. */
  lemma {:induction false} ReleaseRoundTrip(blanks: string, r: Release, rest: string)
    requires (forall c :: c in blanks ==> Whitespace(c)) && Ends(rest)
    ensures ReleaseOf(blanks + Show(r) + rest) == Some(r)
  {
    var t := Show(r) + rest;
    assert blanks + Show(r) + rest == blanks + t;
    DottedReads(r, rest);
    assert IsDigit(t[0]);
    BlanksSkipped(blanks, t);
  }

  /** `s` goes on, after n blanks, with something that is neither blank nor a digit, or ends there. */
  predicate NumberMissing(s: string, n: nat) {
    && n <= |s| && (forall i :: 0 <= i < n ==> Whitespace(s[i]))
    && (n < |s| ==> !Whitespace(s[n]) && !('0' <= s[n] <= '9'))
  }

  /** A version string is unreadable exactly when no digit follows its leading blanks. */
  lemma {:induction false} UnreadableExactly(s: string)
    ensures ReleaseOf(s) == None <==> exists n: nat :: NumberMissing(s, n)
  {
    if s != [] && Whitespace(s[0]) {
      UnreadableExactly(s[1..]);
      if n: nat :| NumberMissing(s[1..], n) { assert NumberMissing(s, n + 1); }
      if n: nat :| NumberMissing(s, n) { assert NumberMissing(s[1..], n - 1); }
    } else if ReleaseOf(s) == None {
      assert NumberMissing(s, 0);
    }
  }

  lemma {:induction false} BlanksSkipped(blanks: string, t: string)
    requires (forall c :: c in blanks ==> Whitespace(c)) && t != [] && !Whitespace(t[0])
    ensures SkipBlanks(blanks + t) == t
  {
    if blanks == [] {
      assert blanks + t == t;
    } else {
      assert (blanks + t)[1..] == blanks[1..] + t;
      BlanksSkipped(blanks[1..], t);
    }
  }

  // ------------------------------------------------------------------- comparing

  function Zeros(n: nat): (z: seq<nat>)
    ensures |z| == n && forall i :: 0 <= i < n ==> z[i] == 0
  {
    if n == 0 then [] else [0] + Zeros(n - 1)
  }

  function Padded(r: seq<nat>, width: nat): (p: seq<nat>)
    requires |r| <= width
    ensures |p| == width
  {
    r + Zeros(width - |r|)
  }

  /** Tuple order of two equally long lists: below, equal or above zero. */
  function TupleCmp(a: seq<nat>, b: seq<nat>): int
    requires |a| == |b|
  {
    if a == [] then 0
    else if a[0] < b[0] then -1
    else if a[0] > b[0] then 1
    else TupleCmp(a[1..], b[1..])
  }

  function Cmp(a: seq<nat>, b: seq<nat>): int {
    var width := if |a| > |b| then |a| else |b|;
    TupleCmp(Padded(a, width), Padded(b, width))
  }

  /** Component i of a release; everything past its end counts as zero. */
  function Component(r: seq<nat>, i: nat): nat { if i < |r| then r[i] else 0 }

  /** The releases agree on their first n components. */
  predicate AgreeTo(a: seq<nat>, b: seq<nat>, n: nat) {
    forall i :: 0 <= i < n ==> Component(a, i) == Component(b, i)
  }

  /** The first component where they differ is smaller in a. */
  ghost predicate Below(a: seq<nat>, b: seq<nat>) {
    exists i: nat :: AgreeTo(a, b, i) && Component(a, i) < Component(b, i)
  }

  lemma {:induction false} TupleCmpMeans(a: seq<nat>, b: seq<nat>) returns (i: nat)
    requires |a| == |b|
    ensures TupleCmp(a, b) in {-1, 0, 1} && i <= |a|
    ensures a[..i] == b[..i]
    ensures TupleCmp(a, b) == 0 <==> i == |a|
    ensures TupleCmp(a, b) == -1 <==> i < |a| && a[i] < b[i]
    ensures TupleCmp(a, b) == 1 <==> i < |a| && a[i] > b[i]
  {
    if a == [] || a[0] != b[0] {
      i := 0;
    } else {
      var j := TupleCmpMeans(a[1..], b[1..]);
      i := j + 1;
      assert a[..i] == [a[0]] + a[1..][..j] && b[..i] == [b[0]] + b[1..][..j];
    }
  }

  /** The comparison decides by the first differing component, however the two are padded. */
  lemma CmpMeans(a: seq<nat>, b: seq<nat>)
    ensures Cmp(a, b) in {-1, 0, 1}
    ensures Cmp(a, b) == -1 <==> Below(a, b)
    ensures Cmp(a, b) == 1 <==> Below(b, a)
    ensures Cmp(a, b) == 0 <==> forall i: nat :: Component(a, i) == Component(b, i)
  {
    var width := if |a| > |b| then |a| else |b|;
    var x, y := Padded(a, width), Padded(b, width);
    assert forall k :: 0 <= k < width ==> x[k] == Component(a, k) && y[k] == Component(b, k);
    var i := TupleCmpMeans(x, y);
    forall k | 0 <= k < i ensures Component(a, k) == Component(b, k) {
      assert x[..i][k] == y[..i][k];
    }
    if i < width {
      assert AgreeTo(a, b, i) && AgreeTo(b, a, i);
      assert Component(a, i) != Component(b, i);
    }
    forall j: nat | AgreeTo(a, b, j) && Component(a, j) != Component(b, j) ensures j == i {
      FirstDifference(a, b, i, j, width);
    }
    forall j: nat | AgreeTo(b, a, j) && Component(a, j) != Component(b, j) ensures j == i {
      assert AgreeTo(a, b, j);
    }
  }

  lemma FirstDifference(a: seq<nat>, b: seq<nat>, i: nat, j: nat, width: nat)
    requires |a| <= width && |b| <= width && i <= width
    requires AgreeTo(a, b, i) && (i < width ==> Component(a, i) != Component(b, i))
    requires AgreeTo(a, b, j) && Component(a, j) != Component(b, j)
    ensures j == i
  {}

  /** A total preorder: equal releases are those that differ in trailing zeros only. */
  lemma CmpIsTotalPreorder(a: seq<nat>, b: seq<nat>, c: seq<nat>)
    ensures Cmp(a, a) == 0
    ensures Cmp(b, a) == -Cmp(a, b)
    ensures Cmp(a, b) <= 0 && Cmp(b, c) <= 0 ==> Cmp(a, c) <= 0
    ensures Cmp(a, b) <= 0 && Cmp(b, c) <= 0 && Cmp(a, c) == 0 ==> Cmp(a, b) == 0 && Cmp(b, c) == 0
  {
    CmpMeans(a, a);
    CmpMeans(a, b);
    CmpMeans(b, a);
    CmpMeans(b, c);
    CmpMeans(a, c);
    if Cmp(a, b) == -1 && Cmp(b, c) == -1 {
      var i: nat :| AgreeTo(a, b, i) && Component(a, i) < Component(b, i);
      var j: nat :| AgreeTo(b, c, j) && Component(b, j) < Component(c, j);
      var k := if i < j then i else j;
      assert AgreeTo(a, c, k) && Component(a, k) < Component(c, k);
    } else if Cmp(a, b) == -1 && Cmp(b, c) == 0 {
      var i: nat :| AgreeTo(a, b, i) && Component(a, i) < Component(b, i);
      assert AgreeTo(a, c, i) && Component(a, i) < Component(c, i);
    } else if Cmp(a, b) == 0 && Cmp(b, c) == -1 {
      var i: nat :| AgreeTo(b, c, i) && Component(b, i) < Component(c, i);
      assert AgreeTo(a, c, i) && Component(a, i) < Component(c, i);
    }
  }

  // ------------------------------------------------------------------ specifiers

  datatype Operator = AtLeast | MoreThan | AtMost | LessThan | Equal | NotEqual | Compatible

  datatype Specifier = Specifier(operator: Operator, target: Release)

  /** First release past the compatible ones. */
  function Upper(target: Release): Release {
    if |target| <= 2 then [target[0] + 1] else target[..|target| - 2] + [target[|target| - 2] + 1]
  }

  /** One specifier's test, as the loop over specifiers applies it. */
  predicate Refuses(current: Release, s: Specifier) {
    var comparison := Cmp(current, s.target);
    match s.operator
    case AtLeast => comparison < 0
    case MoreThan => comparison <= 0
    case AtMost => comparison > 0
    case LessThan => comparison >= 0
    case Equal => comparison != 0
    case NotEqual => comparison == 0
    case Compatible => comparison < 0 || Cmp(current, Upper(s.target)) >= 0
  }

  /** What a specifier promises, by components. */
  ghost predicate Meets(current: Release, s: Specifier) {
    match s.operator
    case AtLeast => !Below(current, s.target)
    case MoreThan => Below(s.target, current)
    case AtMost => !Below(s.target, current)
    case LessThan => Below(current, s.target)
    case Equal => !Below(current, s.target) && !Below(s.target, current)
    case NotEqual => Below(current, s.target) || Below(s.target, current)
    case Compatible =>
      !Below(current, s.target) && AgreeTo(current, s.target, if |s.target| == 1 then 1 else |s.target| - 1)
  }

  datatype Unreadable = Unreadable(text: string)

  /** A specifier as declared, its target still text. */
  datatype Declared = Declared(operator: Operator, rawTarget: string)

  /** The specifier is readable, and the installed release meets it. */
  ghost predicate Passes(current: Release, d: Declared) {
    ReleaseOf(d.rawTarget).Some? && Meets(current, Specifier(d.operator, ReleaseOf(d.rawTarget).value))
  }

  /** _satisfies: an unreadable version is an error when it is reached, a specifier the
      installed release fails ends the search. */
  method Satisfies(installed: string, specifiers: seq<Declared>) returns (r: Result<bool, Unreadable>)
    ensures ReleaseOf(installed) == None ==> r == Err(Unreadable(installed))
    ensures ReleaseOf(installed).Some? ==>
              var current := ReleaseOf(installed).value;
              && (r == Ok(true) <==> forall i :: 0 <= i < |specifiers| ==> Passes(current, specifiers[i]))
              && (r != Ok(true) ==>
                    exists i :: 0 <= i < |specifiers| && !Passes(current, specifiers[i])
                                && (forall j :: 0 <= j < i ==> Passes(current, specifiers[j]))
                                && (r.Err? <==> ReleaseOf(specifiers[i].rawTarget) == None))
  {
    var parsed := ReleaseOf(installed);
    if parsed == None { return Err(Unreadable(installed)); }
    var current := parsed.value;
    for i := 0 to |specifiers|
      invariant forall j :: 0 <= j < i ==> Passes(current, specifiers[j])
    {
      var target := ReleaseOf(specifiers[i].rawTarget);
      if target == None { return Err(Unreadable(specifiers[i].rawTarget)); }
      var s := Specifier(specifiers[i].operator, target.value);
      RefusalsAreFailures(current, s);
      if Refuses(current, s) { return Ok(false); }
    }
    r := Ok(true);
  }

  lemma RefusalsAreFailures(current: Release, s: Specifier)
    ensures Refuses(current, s) <==> !Meets(current, s)
  {
    CmpMeans(current, s.target);
    if s.operator == Compatible { CompatibleRelease(current, s.target); }
  }

  /** The interval test of `~=` is the prefix match of PEP 440, "Compatible release": at least
      the target, and equal to it on every component but the last. A one-component target,
      which PEP 440 forbids and this code accepts, is compared on that component. */
  lemma CompatibleRelease(current: Release, target: Release)
    ensures Cmp(current, target) >= 0 && Cmp(current, Upper(target)) < 0
        <==> !Below(current, target) && AgreeTo(current, target, if |target| == 1 then 1 else |target| - 1)
  {
    CmpMeans(current, target);
    CmpMeans(current, Upper(target));
    var k := if |target| == 1 then 1 else |target| - 1;
    UpperIsNext(target, k);
    if AgreeTo(current, target, k) {
      assert AgreeTo(current, Upper(target), k - 1);
      assert Component(current, k - 1) < Component(Upper(target), k - 1);
    } else if !Below(current, target) {
      NotUnder(current, target, k);
    }
  }

  lemma UpperIsNext(target: Release, k: nat)
    requires k == if |target| == 1 then 1 else |target| - 1
    ensures |Upper(target)| == k && AgreeTo(Upper(target), target, k - 1)
    ensures Component(Upper(target), k - 1) == Component(target, k - 1) + 1
  {}

  /** At least the target but differing from it early on: not under the upper bound. */
  lemma NotUnder(current: Release, target: Release, k: nat)
    requires k == if |target| == 1 then 1 else |target| - 1
    requires !AgreeTo(current, target, k) && !Below(current, target)
    ensures !Below(current, Upper(target))
  {
    UpperIsNext(target, k);
    var i := Earliest(current, target, k);
    assert Component(current, i) > Component(target, i);
    forall j: nat | AgreeTo(current, Upper(target), j) ensures Component(current, j) >= Component(Upper(target), j) {
      if j > i { assert Component(current, i) == Component(Upper(target), i); }
      if j < i { assert Component(current, j) == Component(target, j); }
    }
  }

  lemma {:induction false} Earliest(a: seq<nat>, b: seq<nat>, n: nat) returns (i: nat)
    requires !AgreeTo(a, b, n)
    ensures i < n && AgreeTo(a, b, i) && Component(a, i) != Component(b, i)
  {
    if AgreeTo(a, b, n - 1) { i := n - 1; } else { i := Earliest(a, b, n - 1); }
  }
}
