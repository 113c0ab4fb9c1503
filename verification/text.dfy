/** Strings, optional values and the few PHP string and array primitives the
    module relies on: `empty()`/truthiness of strings, `trim`, `ltrim`/`rtrim`
    with a character list, `explode`, `implode` and `array_filter` without a
    callback. */
module Text {

  type String = seq<char>

  /** A PHP value that may be NULL (or an array key that may be unset). */
  datatype Option<+T> = None | Some(value: T) {

    /** The PHP `??` operator. */
    function GetOr(default: T): T {
      if Some? then value else default
    }
  }

  /** How a PHP call ends: it returns a value, or it raises an error
      that no caller catches. */
  datatype Outcome<+T> = Returned(value: T) | Uncaught(error: String)

  /** PHP `empty()` (and falsiness) of a string: true for "" and for "0". */
  predicate PhpEmpty(s: String) {
    s == "" || s == "0"
  }

  /** PHP truthiness of a string that may be NULL. */
  predicate Truthy(o: Option<String>) {
    o.Some? && !PhpEmpty(o.value)
  }

  /** The characters PHP `trim()` removes by default: space, tab, line feed,
      carriage return, NUL and vertical tab. */
  predicate IsSpace(c: char) {
    c == ' ' || c == '\t' || c == '\n' || c == '\r' || c as int == 0 || c as int == 11
  }

  /** Drops the longest prefix of `s` whose characters all satisfy `strip`. */
  function TrimLeftWhile(s: String, strip: char -> bool): (r: String)
    ensures |r| <= |s| && r == s[|s| - |r|..]
    ensures r != [] ==> !strip(r[0])
    ensures forall i :: 0 <= i < |s| - |r| ==> strip(s[i])
    decreases |s|
  {
    if s != [] && strip(s[0]) then TrimLeftWhile(s[1..], strip) else s
  }

  /** Drops the longest suffix of `s` whose characters all satisfy `strip`. */
  function TrimRightWhile(s: String, strip: char -> bool): (r: String)
    ensures |r| <= |s| && r == s[..|r|]
    ensures r != [] ==> !strip(r[|r| - 1])
    ensures forall i :: |r| <= i < |s| ==> strip(s[i])
    decreases |s|
  {
    if s != [] && strip(s[|s| - 1]) then TrimRightWhile(s[..|s| - 1], strip) else s
  }

  /** PHP `trim($s)`: a piece of `s` that neither starts nor ends with
      whitespace. */
  function Trim(s: String): (r: String)
    ensures r != [] ==> !IsSpace(r[0]) && !IsSpace(r[|r| - 1])
    ensures forall c :: c in r ==> c in s
  {
    var l := TrimLeftWhile(s, IsSpace);
    var r := TrimRightWhile(l, IsSpace);
    assert forall c :: c in l ==> c in s;
    r
  }

  /** A string without surrounding whitespace is its own trim. */
  lemma TrimUnspaced(s: String)
    requires s != [] ==> !IsSpace(s[0]) && !IsSpace(s[|s| - 1])
    ensures Trim(s) == s
  {
  }

  /** PHP `ltrim($s, $c)` for a single character `c`. */
  function LeftTrimChar(s: String, c: char): (r: String)
    ensures |r| <= |s| && r == s[|s| - |r|..]
    ensures r != [] ==> r[0] != c
    ensures forall i :: 0 <= i < |s| - |r| ==> s[i] == c
  {
    TrimLeftWhile(s, x => x == c)
  }

  /** PHP `rtrim($s, $c)` for a single character `c`. */
  function RightTrimChar(s: String, c: char): (r: String)
    ensures r <= s
    ensures r != [] ==> r[|r| - 1] != c
    ensures forall i :: |r| <= i < |s| ==> s[i] == c
  {
    TrimRightWhile(s, x => x == c)
  }

  /** PHP `explode($sep, $s)` for a one-character separator: always at least
      one piece, and no piece contains the separator. */
  function Split(s: String, sep: char): (parts: seq<String>)
    ensures |parts| >= 1
    ensures forall i :: 0 <= i < |parts| ==> sep !in parts[i]
    decreases |s|
  {
    if s == [] then [[]]
    else
      var rest := Split(s[1..], sep);
      if s[0] == sep then [[]] + rest
      else [[s[0]] + rest[0]] + rest[1..]
  }

  /** PHP `implode($sep, $parts)` for a one-character separator. */
  function Join(parts: seq<String>, sep: char): String
    decreases |parts|
  {
    if |parts| == 0 then []
    else if |parts| == 1 then parts[0]
    else parts[0] + [sep] + Join(parts[1..], sep)
  }

  /** `implode` undoes `explode`. */
  lemma {:induction false} JoinSplit(s: String, sep: char)
    ensures Join(Split(s, sep), sep) == s
    decreases |s|
  {
    if s != [] {
      var rest := Split(s[1..], sep);
      JoinSplit(s[1..], sep);
      if s[0] == sep {
        assert Join([[]] + rest, sep) == [] + [sep] + Join(rest, sep);
      } else if |rest| == 1 {
        assert Join([[s[0]] + rest[0]] + rest[1..], sep) == [s[0]] + rest[0];
      } else {
        var parts := [[s[0]] + rest[0]] + rest[1..];
        assert parts[1..] == rest[1..];
        assert Join(rest, sep) == rest[0] + [sep] + Join(rest[1..], sep);
        assert Join(parts, sep) == [s[0]] + rest[0] + [sep] + Join(rest[1..], sep);
      }
    }
  }

  /** A string without the separator explodes to itself. */
  lemma {:induction false} SplitNoSeparator(a: String, sep: char)
    requires sep !in a
    ensures Split(a, sep) == [a]
    decreases |a|
  {
    if a != [] {
      SplitNoSeparator(a[1..], sep);
      assert [a[0]] + a[1..] == a;
    }
  }

  /** Exploding `a <sep> b` yields `a` followed by the pieces of `b`. */
  lemma {:induction false} SplitConcat(a: String, b: String, sep: char)
    requires sep !in a
    ensures Split(a + [sep] + b, sep) == [a] + Split(b, sep)
    decreases |a|
  {
    var s := a + [sep] + b;
    if a == [] {
      assert s[1..] == b;
    } else {
      assert s[1..] == a[1..] + [sep] + b;
      SplitConcat(a[1..], b, sep);
      assert [a[0]] + a[1..] == a;
    }
  }

  /** `explode` undoes `implode` when no piece contains the separator. */
  lemma {:induction false} SplitJoin(parts: seq<String>, sep: char)
    requires |parts| >= 1
    requires forall i :: 0 <= i < |parts| ==> sep !in parts[i]
    ensures Split(Join(parts, sep), sep) == parts
    decreases |parts|
  {
    if |parts| == 1 {
      SplitNoSeparator(parts[0], sep);
    } else {
      SplitJoin(parts[1..], sep);
      SplitConcat(parts[0], Join(parts[1..], sep), sep);
    }
  }

  /** PHP `ucfirst`: the first character upper-cased when it is an ASCII
      lower-case letter. */
  function Ucfirst(s: String): (r: String)
    ensures |r| == |s| && (s != [] ==> r[1..] == s[1..])
  {
    if s == [] then []
    else if 'a' <= s[0] <= 'z' then [(s[0] as int - 32) as char] + s[1..]
    else s
  }

  /** `array_map('trim', $xs)`. */
  function TrimAll(xs: seq<String>): (r: seq<String>)
    ensures |r| == |xs|
    ensures forall i :: 0 <= i < |xs| ==> r[i] == Trim(xs[i])
  {
    seq(|xs|, i requires 0 <= i < |xs| => Trim(xs[i]))
  }

  /** The elements of `xs` satisfying `p`, in their original order (PHP
      `array_values(array_filter($xs, $p))`). */
  function Filter<T(!new)>(xs: seq<T>, p: T -> bool): (r: seq<T>)
    ensures |r| <= |xs|
    decreases |xs|
  {
    if xs == [] then []
    else (if p(xs[0]) then [xs[0]] else []) + Filter(xs[1..], p)
  }

  /** Filtering a sequence handles its first element and then the rest. */
  lemma FilterCons<T(!new)>(x: T, rest: seq<T>, p: T -> bool)
    ensures Filter([x] + rest, p) == (if p(x) then [x] else []) + Filter(rest, p)
  {
    assert ([x] + rest)[1..] == rest;
  }

  /** The filter keeps exactly the elements satisfying `p`. */
  lemma {:induction false} FilterMembers<T(!new)>(xs: seq<T>, p: T -> bool)
    ensures forall x :: x in Filter(xs, p) <==> x in xs && p(x)
    decreases |xs|
  {
    if xs != [] {
      FilterMembers(xs[1..], p);
      assert xs == [xs[0]] + xs[1..];
    }
  }

  /** Filtering works piecewise, so the kept elements keep their relative order. */
  lemma {:induction false} FilterConcat<T(!new)>(a: seq<T>, b: seq<T>, p: T -> bool)
    ensures Filter(a + b, p) == Filter(a, p) + Filter(b, p)
    decreases |a|
  {
    if a == [] {
      assert a + b == b;
    } else {
      assert (a + b)[1..] == a[1..] + b;
      FilterConcat(a[1..], b, p);
      var head := if p(a[0]) then [a[0]] else [];
      assert Filter(a + b, p) == head + (Filter(a[1..], p) + Filter(b, p));
      assert head + (Filter(a[1..], p) + Filter(b, p)) == (head + Filter(a[1..], p)) + Filter(b, p);
    }
  }

  /** Filtering keeps exactly as many elements as satisfy `p`. */
  lemma {:induction false} FilterCount<T(!new)>(xs: seq<T>, p: T -> bool)
    ensures |Filter(xs, p)| == Count(xs, p)
    decreases |xs|
  {
    if xs != [] {
      FilterCount(xs[1..], p);
    }
  }

  /** Filtering drops nothing exactly when every element satisfies `p`. */
  lemma {:induction false} FilterKeepsAll<T(!new)>(xs: seq<T>, p: T -> bool)
    ensures |Filter(xs, p)| == |xs| <==> forall i :: 0 <= i < |xs| ==> p(xs[i])
    decreases |xs|
  {
    if xs != [] {
      FilterKeepsAll(xs[1..], p);
      if p(xs[0]) {
        forall i | 1 <= i < |xs| && !p(xs[i])
          ensures !(forall j :: 0 <= j < |xs[1..]| ==> p(xs[1..][j]))
        {
          assert xs[1..][i - 1] == xs[i];
        }
      }
      assert (forall j :: 0 <= j < |xs[1..]| ==> p(xs[1..][j])) <==> (forall i :: 1 <= i < |xs| ==> p(xs[i])) by {
        forall i | 1 <= i < |xs| ensures xs[1..][i - 1] == xs[i] { }
      }
    }
  }

  /** When every element satisfies `p`, filtering is the identity. */
  lemma {:induction false} FilterAll<T(!new)>(xs: seq<T>, p: T -> bool)
    requires forall i :: 0 <= i < |xs| ==> p(xs[i])
    ensures Filter(xs, p) == xs
    decreases |xs|
  {
    if xs != [] {
      FilterAll(xs[1..], p);
      assert [xs[0]] + xs[1..] == xs;
    }
  }

  /** The first element kept is the first element satisfying `p`: it sits
      at a position `i` before which nothing satisfies `p`. */
  lemma {:induction false} FilterFirst<T(!new)>(xs: seq<T>, p: T -> bool) returns (i: nat)
    requires Filter(xs, p) != []
    ensures i < |xs| && p(xs[i]) && Filter(xs, p)[0] == xs[i]
    ensures forall j :: 0 <= j < i ==> !p(xs[j])
    decreases |xs|
  {
    if p(xs[0]) {
      i := 0;
    } else {
      var k := FilterFirst(xs[1..], p);
      i := k + 1;
      forall j | 0 < j < i ensures !p(xs[j]) {
        assert xs[j] == xs[1..][j - 1];
      }
    }
  }

  /** Filtering keeps nothing exactly when no element satisfies `p`. */
  lemma FilterNone<T(!new)>(xs: seq<T>, p: T -> bool)
    ensures Filter(xs, p) == [] <==> forall i :: 0 <= i < |xs| ==> !p(xs[i])
  {
    FilterMembers(xs, p);
    if Filter(xs, p) != [] {
      assert Filter(xs, p)[0] in xs;
    } else {
      forall i | 0 <= i < |xs| ensures !p(xs[i]) {
        assert xs[i] in xs;
      }
    }
  }

  /** Filtering the images `ys` of `xs` under `f` keeps exactly the images
      that satisfy `p`. */
  lemma MapFilterMembers<S, T(!new)>(xs: seq<S>, ys: seq<T>, f: S -> T, p: T -> bool)
    requires |ys| == |xs| && forall i :: 0 <= i < |xs| ==> ys[i] == f(xs[i])
    ensures forall x :: x in xs && p(f(x)) ==> f(x) in Filter(ys, p)
    ensures forall y :: y in Filter(ys, p) ==> exists x :: x in xs && y == f(x)
  {
    FilterMembers(ys, p);
    forall x | x in xs && p(f(x)) ensures f(x) in Filter(ys, p) {
      var j :| 0 <= j < |xs| && xs[j] == x;
      assert ys[j] == f(x);
    }
    forall y | y in Filter(ys, p) ensures exists x :: x in xs && y == f(x) {
      var j :| 0 <= j < |ys| && ys[j] == y;
      assert xs[j] in xs;
    }
  }

  /** No element occurs twice. */
  predicate Distinct<T(==)>(xs: seq<T>) {
    forall i, j :: 0 <= i < j < |xs| ==> xs[i] != xs[j]
  }

  /** Filtering a sequence without repetitions yields one without repetitions. */
  lemma {:induction false} FilterDistinct<T(!new)>(xs: seq<T>, p: T -> bool)
    requires Distinct(xs)
    ensures Distinct(Filter(xs, p))
    decreases |xs|
  {
    if xs != [] {
      FilterDistinct(xs[1..], p);
      FilterMembers(xs[1..], p);
      forall k | 0 <= k < |xs[1..]| ensures xs[1..][k] != xs[0] {
        assert xs[1..][k] == xs[k + 1];
      }
    }
  }

  /** A string PHP considers truthy. */
  predicate NonEmpty(s: String) {
    !PhpEmpty(s)
  }

  /** `array_filter($xs)` on strings, re-indexed: drops "" and "0". */
  function KeepTruthy(xs: seq<String>): (kept: seq<String>) {
    Filter(xs, NonEmpty)
  }

  /** The number of elements of `xs` satisfying `p`. */
  function Count<T>(xs: seq<T>, p: T -> bool): (n: nat)
    ensures n <= |xs|
    decreases |xs|
  {
    if xs == [] then 0 else (if p(xs[0]) then 1 else 0) + Count(xs[1..], p)
  }

  /** `xs` in reverse order. */
  function Reverse<T>(xs: seq<T>): (r: seq<T>)
    ensures |r| == |xs|
    decreases |xs|
  {
    if xs == [] then [] else Reverse(xs[1..]) + [xs[0]]
  }

  /** Reversing a non-empty sequence before `tail` moves its first element
      in front of `tail`. */
  lemma ReverseThenAppend<T>(xs: seq<T>, tail: seq<T>)
    requires xs != []
    ensures Reverse(xs) + tail == Reverse(xs[1..]) + ([xs[0]] + tail)
  {
    var r := Reverse(xs[1..]);
    assert Reverse(xs) == r + [xs[0]];
    AppendAssoc(r, [xs[0]], tail);
  }

  lemma AppendAssoc<T>(a: seq<T>, b: seq<T>, c: seq<T>)
    ensures (a + b) + c == a + (b + c)
  {
  }

  /** The first `n` elements of `xs`, or all of them when there are fewer
      (PHP `array_slice($xs, 0, $n)` for `n >= 0`). */
  function Take<T>(xs: seq<T>, n: nat): (r: seq<T>)
    ensures |r| == if |xs| <= n then |xs| else n
    ensures r <= xs
  {
    if |xs| <= n then xs else xs[..n]
  }

  /** Truncating twice to the same length is truncating once. */
  lemma TakeAbsorbs<T>(a: seq<T>, b: seq<T>, n: nat)
    ensures Take(a + Take(b, n), n) == Take(a + b, n)
  {
    if |b| > n {
      var l := Take(a + b[..n], n);
      var r := Take(a + b, n);
      assert |l| == |r|;
      forall i | 0 <= i < |l| ensures l[i] == r[i] {
        if i < |a| {
          assert l[i] == a[i] == r[i];
        } else {
          assert l[i] == b[i - |a|] == r[i];
        }
      }
    }
  }
}
