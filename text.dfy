/** Option<T>: an optional field of a raw API record (a dictionary key that may be absent). */
module Wrappers {

  datatype Option<+T> = None | Some(value: T) {

    /** Python's `d.get(key, default)`: the value when the key is present, else the default. */
    function GetOr(default: T): T {
      match this
      case Some(v) => v
      case None => default
    }
  }
}

/** The string operations of Python that the formatter and the collector rely on. */
module Text {

  /** Python's `sep.join(parts)`. */
  function Join(parts: seq<string>, sep: string): string
    decreases |parts|
  {
    if |parts| == 0 then ""
    else if |parts| == 1 then parts[0]
    else Join(parts[..|parts| - 1], sep) + sep + parts[|parts| - 1]
  }

  function Sum(ns: seq<nat>): nat
    decreases |ns|
  {
    if ns == [] then 0 else Sum(ns[..|ns| - 1]) + ns[|ns| - 1]
  }

  /** The lengths of a list of strings, position by position. */
  function Lengths(parts: seq<string>): (ls: seq<nat>)
    ensures |ls| == |parts|
    ensures forall i :: 0 <= i < |parts| ==> ls[i] == |parts[i]|
  {
    seq(|parts|, i requires 0 <= i < |parts| => |parts[i]|)
  }

  /** A joined string is as long as its parts together plus one separator between each pair. */
  lemma {:induction false} JoinLength(parts: seq<string>, sep: string)
    requires |parts| > 0
    ensures |Join(parts, sep)| == Sum(Lengths(parts)) + |sep| * (|parts| - 1)
    decreases |parts|
  {
    var n := |parts|;
    if n > 1 {
      var init := parts[..n - 1];
      JoinLength(init, sep);
      assert Lengths(parts)[..n - 1] == Lengths(init);
      calc {
        |Join(parts, sep)|;
        |Join(init, sep)| + |sep| + |parts[n - 1]|;
        Sum(Lengths(init)) + |sep| * (n - 2) + |sep| + |parts[n - 1]|;
        { assert |sep| * (n - 2) + |sep| == |sep| * (n - 1); }
        Sum(Lengths(parts)) + |sep| * (n - 1);
      }
    }
  }

  /** A joined string begins with the first part. */
  lemma {:induction false} JoinStartsWithFirst(parts: seq<string>, sep: string)
    requires |parts| > 0
    ensures |parts[0]| <= |Join(parts, sep)| && Join(parts, sep)[..|parts[0]|] == parts[0]
    decreases |parts|
  {
    if |parts| > 1 {
      JoinStartsWithFirst(parts[..|parts| - 1], sep);
    }
  }

  lemma JoinEmptySnoc(parts: seq<string>, x: string)
    ensures Join(parts + [x], "") == Join(parts, "") + x
  {
    if parts == [] {
      assert parts + [x] == [x];
    } else {
      assert (parts + [x])[..|parts|] == parts;
    }
  }

  /** `"".join(a + b)` is `"".join(a)` followed by `"".join(b)`. */
  lemma {:induction false} JoinEmptyConcat(a: seq<string>, b: seq<string>)
    ensures Join(a + b, "") == Join(a, "") + Join(b, "")
    decreases |b|
  {
    if b == [] {
      assert a + b == a;
    } else {
      var b' := b[..|b| - 1];
      var x := b[|b| - 1];
      assert a + b == (a + b') + [x];
      assert b == b' + [x];
      JoinEmptyConcat(a, b');
      JoinEmptySnoc(a + b', x);
      JoinEmptySnoc(b', x);
    }
  }

  /** `"".join` of five parts is their concatenation. */
  lemma Join5(a: string, b: string, c: string, d: string, e: string)
    ensures Join([a, b, c, d, e], "") == a + b + c + d + e
  {
    JoinEmptySnoc([a], b);
    assert [a] + [b] == [a, b];
    JoinEmptySnoc([a, b], c);
    assert [a, b] + [c] == [a, b, c];
    JoinEmptySnoc([a, b, c], d);
    assert [a, b, c] + [d] == [a, b, c, d];
    JoinEmptySnoc([a, b, c, d], e);
    assert [a, b, c, d] + [e] == [a, b, c, d, e];
  }

  /** Concatenation regrouped: the pieces of three fragments gathered into one line. */
  lemma Regroup(t: string, p1: string, v1: string, q: string, p2: string, v2: string,
                p3: string, v3: string, nl: string, rule: string)
    ensures t + (p1 + v1 + q) + (p2 + v2 + q) + (p3 + v3 + nl) + rule
         == t + (p1 + v1 + q + p2 + v2 + q + p3 + v3) + nl + rule
  {
  }

  /** A text framed by a first and a last part: where each part starts and ends. */
  lemma Framed(t: string, line: string, rule: string)
    ensures var h := t + line + "\n" + rule; var e := |h| - |rule| - 1;
      |t| + |line| == e && h[..|t|] == t && h[e] == '\n' && h[e + 1..] == rule
      && forall k :: |t| <= k < e ==> h[k] == line[k - |t|]
  {
  }

  /** `c * n` for a one-character string `c`. */
  function Repeat(c: char, n: nat): (r: string)
    ensures |r| == n
    ensures forall k :: 0 <= k < n ==> r[k] == c
  {
    seq(n, _ => c)
  }

  /** Python's `s.ljust(w)`: pads with spaces on the right up to `w`, never truncates. */
  function LJust(s: string, w: nat): (r: string)
    ensures |r| == if |s| >= w then |s| else w
    ensures r[..|s|] == s
    ensures forall k :: |s| <= k < |r| ==> r[k] == ' '
  {
    if |s| >= w then s else s + Repeat(' ', w - |s|)
  }

  predicate IsDigit(c: char) {
    '0' <= c <= '9'
  }

  function DigitChar(d: nat): (c: char)
    requires d < 10
    ensures IsDigit(c)
  {
    "0123456789"[d]
  }

  /** Python's `str(n)` for a non-negative integer: its decimal digits, without leading zeros. */
  function NatToString(n: nat): (r: string)
    ensures |r| > 0
    ensures forall k :: 0 <= k < |r| ==> IsDigit(r[k])
    ensures n > 0 ==> r[0] != '0'
    decreases n
  {
    if n < 10 then [DigitChar(n)] else NatToString(n / 10) + [DigitChar(n % 10)]
  }

  /** The value of a string of decimal digits (the reference that `NatToString` is checked against). */
  function DecimalValue(s: string): nat
    requires forall k :: 0 <= k < |s| ==> IsDigit(s[k])
    decreases |s|
  {
    if s == [] then 0
    else
      assert IsDigit(s[|s| - 1]);
      DecimalValue(s[..|s| - 1]) * 10 + (s[|s| - 1] as int - '0' as int)
  }

  /** Reading back the decimal text of `n` gives `n`. */
  lemma {:induction false} NatToStringRoundTrip(n: nat)
    ensures DecimalValue(NatToString(n)) == n
    decreases n
  {
    var s := NatToString(n);
    if n >= 10 {
      NatToStringRoundTrip(n / 10);
      assert s[..|s| - 1] == NatToString(n / 10);
    }
  }

  /** Python's `str(i)` for any integer. */
  function IntToString(i: int): (r: string)
    ensures |r| > 0
    ensures r[0] == '-' <==> i < 0
    ensures var digits := if i < 0 then r[1..] else r;
      digits != [] && (forall k :: 0 <= k < |digits| ==> IsDigit(digits[k]))
      && DecimalValue(digits) == if i < 0 then -i else i
  {
    if i < 0 then
      NatToStringRoundTrip(-i);
      var r := "-" + NatToString(-i);
      assert r[1..] == NatToString(-i);
      r
    else
      NatToStringRoundTrip(i);
      assert IsDigit(NatToString(i)[0]);
      NatToString(i)
  }

  /** `pat` occurs in `s` at position `k`. */
  predicate OccursAt(s: string, pat: string, k: nat) {
    k + |pat| <= |s| && s[k..k + |pat|] == pat
  }

  /**
   * Python's `s.replace(pat, '')`: scans left to right, removes each occurrence it meets
   * and resumes after it. A non-empty pattern is the only case modelled.
   */
  function RemoveAll(s: string, pat: string): (r: string)
    requires pat != ""
    ensures |r| <= |s|
    decreases |s|
  {
    if |s| < |pat| then s
    else if s[..|pat|] == pat then RemoveAll(s[|pat|..], pat)
    else [s[0]] + RemoveAll(s[1..], pat)
  }

  /** A string without an occurrence of the pattern is left unchanged. */
  lemma {:induction false} RemoveAllNoOccurrence(s: string, pat: string)
    requires pat != ""
    requires forall k :: 0 <= k < |s| ==> !OccursAt(s, pat, k)
    ensures RemoveAll(s, pat) == s
    decreases |s|
  {
    if |s| >= |pat| {
      assert !OccursAt(s, pat, 0);
      var t := s[1..];
      forall k | 0 <= k < |t| ensures !OccursAt(t, pat, k) {
        assert !OccursAt(s, pat, k + 1);
        if k + |pat| <= |t| {
          assert t[k..k + |pat|] == s[k + 1..k + 1 + |pat|];
        }
      }
      RemoveAllNoOccurrence(t, pat);
      assert s == [s[0]] + t;
    }
  }

  /**
   * The first occurrence is removed wherever it stands, and the scan resumes right after it:
   * if no occurrence of `pat` starts inside `a`, then `(a + pat + b).replace(pat, '')` is
   * `a + b.replace(pat, '')`. Applied repeatedly, every occurrence met by the scan goes.
   */
  lemma {:induction false} RemoveAllFirstOccurrence(a: string, pat: string, b: string)
    requires pat != ""
    requires forall k :: 0 <= k < |a| ==> !OccursAt(a + pat + b, pat, k)
    ensures RemoveAll(a + pat + b, pat) == a + RemoveAll(b, pat)
    decreases |a|
  {
    var s := a + pat + b;
    if a == [] {
      assert s == pat + b;
      assert s[..|pat|] == pat;
      assert s[|pat|..] == b;
    } else {
      var a' := a[1..];
      assert s[1..] == a' + pat + b;
      forall k | 0 <= k < |a'| ensures !OccursAt(a' + pat + b, pat, k) {
        OccursAtTail(s, pat, k);
      }
      RemoveAllFirstOccurrence(a', pat, b);
      RemoveAllKeep(s, pat);
      assert a == [a[0]] + a';
    }
  }

  /** Without an occurrence at the front, the first character is kept and the scan moves on by one. */
  lemma RemoveAllKeep(s: string, pat: string)
    requires pat != "" && |s| >= |pat| && !OccursAt(s, pat, 0)
    ensures RemoveAll(s, pat) == [s[0]] + RemoveAll(s[1..], pat)
  {
  }

  /** An occurrence in the tail of `s` is an occurrence in `s` one place further on. */
  lemma OccursAtTail(s: string, pat: string, k: nat)
    requires |s| > 0
    ensures OccursAt(s[1..], pat, k) <==> OccursAt(s, pat, k + 1)
  {
    if k + |pat| <= |s| - 1 {
      assert s[1..][k..k + |pat|] == s[k + 1..k + 1 + |pat|];
    }
  }
}

/** Python's list slicing and the append loop that every `collect_*` and `format_*` body runs. */
module Seqs {

  /** Python's `s[:n]` for any integer `n`: a negative `n` counts from the end. */
  function Prefix<T>(s: seq<T>, n: int): (r: seq<T>)
    ensures n >= 0 ==> |r| == if n <= |s| then n else |s|
    ensures n < 0 ==> |r| == if |s| + n >= 0 then |s| + n else 0
    ensures r == s[..|r|]
  {
    if n >= 0 then (if n <= |s| then s[..n] else s)
    else (if |s| + n >= 0 then s[..|s| + n] else [])
  }

  /** The list `[f(x) for x in xs]`, in order. */
  function MapSeq<A, B>(xs: seq<A>, f: A -> B): (ys: seq<B>)
    ensures |ys| == |xs|
    ensures forall i :: 0 <= i < |xs| ==> ys[i] == f(xs[i])
  {
    seq(|xs|, i requires 0 <= i < |xs| => f(xs[i]))
  }

  /** Mapping a list with one more element appends that element's image. */
  lemma MapSeqSnoc<A, B>(xs: seq<A>, x: A, f: A -> B)
    ensures MapSeq(xs + [x], f) == MapSeq(xs, f) + [f(x)]
  {
  }

  /** One more step of the append loop: the image of `xs[i]` goes after those of `xs[..i]`. */
  lemma MapSeqStep<A, B>(xs: seq<A>, i: nat, f: A -> B)
    requires i < |xs|
    ensures MapSeq(xs[..i + 1], f) == MapSeq(xs[..i], f) + [f(xs[i])]
  {
    assert xs[..i + 1] == xs[..i] + [xs[i]];
    MapSeqSnoc(xs[..i], xs[i], f);
  }

  /** After the last step the loop has mapped the whole list. */
  lemma MapSeqAll<A, B>(xs: seq<A>, f: A -> B)
    ensures MapSeq(xs[..|xs|], f) == MapSeq(xs, f)
  {
    assert xs[..|xs|] == xs;
  }

  /** One step of an inner append loop that continues after the images of `d`. */
  lemma MapSeqAppendStep<A, B>(d: seq<A>, b: seq<A>, j: nat, f: A -> B)
    requires j < |b|
    ensures MapSeq(d + b[..j + 1], f) == MapSeq(d + b[..j], f) + [f(b[j])]
  {
    assert d + b[..j + 1] == (d + b[..j]) + [b[j]];
    MapSeqSnoc(d + b[..j], b[j], f);
  }

  /** The inner append loop before its first and after its last step. */
  lemma MapSeqAppendAll<A, B>(d: seq<A>, b: seq<A>, f: A -> B)
    ensures MapSeq(d + b[..|b|], f) == MapSeq(d + b, f)
    ensures MapSeq(d + b[..0], f) == MapSeq(d, f)
  {
    assert b[..|b|] == b;
    assert d + b[..0] == d;
  }

  lemma PrefixAll<T>(s: seq<T>)
    ensures s[..|s|] == s
  {
  }

  /** `ys = []; for x in xs: ys.append(f(x))`. */
  method MapInOrder<A, B>(xs: seq<A>, f: A -> B) returns (ys: seq<B>)
    ensures |ys| == |xs|
    ensures forall i :: 0 <= i < |xs| ==> ys[i] == f(xs[i])
  {
    ys := [];
    for i := 0 to |xs|
      invariant |ys| == i
      invariant forall k :: 0 <= k < i ==> ys[k] == f(xs[k])
    {
      ys := ys + [f(xs[i])];
    }
  }
}
