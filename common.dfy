/** Value types shared by the entry page and the three visualisation views. */
module Common {

  datatype Option<T> = None | Some(value: T)

  /** One repurposing opportunity of an analysis: the views read disease, confidence and tags. */
  datatype Opportunity = Opportunity(disease: string, confidence: real, description: string, tags: seq<string>)

  /**
   * The analysis object a view receives. `molecule` and `target` may be missing;
   * `opportunities` is used as it is, without any validation.
   */
  datatype Payload = Payload(molecule: Option<string>, target: Option<string>, opportunities: seq<Opportunity>)

  /** A draw of `Math.random()`: a number in [0, 1). */
  predicate Unit(r: real) {
    0.0 <= r < 1.0
  }

  /** `Math.floor(Math.random() * n)` for a positive integer n: an integer in [0, n). */
  function RandomBelow(r: real, n: nat): (k: nat)
    requires Unit(r) && n > 0
    ensures k < n
  {
    assert r * (n as real) < n as real;
    (r * (n as real)).Floor
  }

  /** JavaScript truthiness of an optional string: a missing value and "" are both falsy. */
  predicate Truthy(s: Option<string>) {
    s.Some? && s.value != ""
  }

  function Min(a: real, b: real): real {
    if a <= b then a else b
  }

  function Max(a: real, b: real): real {
    if a >= b then a else b
  }

  /** Math.max(lo, Math.min(hi, x)) */
  function Clamp(x: real, lo: real, hi: real): (r: real)
    requires lo <= hi
    ensures lo <= r <= hi
    ensures lo <= x <= hi ==> r == x
  {
    Max(lo, Min(hi, x))
  }

  function Abs(x: real): real {
    if x < 0.0 then -x else x
  }

  /**
   * `a` is an order-preserving subsequence of `b`: matching from the back, every
   * element of `a` is found in `b`, in order, skipping elements of `b` as needed.
   */
  predicate IsSubsequence<T(==)>(a: seq<T>, b: seq<T>)
    decreases |b|
  {
    if a == [] then true
    else if b == [] then false
    else if a[|a| - 1] == b[|b| - 1] then IsSubsequence(a[..|a| - 1], b[..|b| - 1])
    else IsSubsequence(a, b[..|b| - 1])
  }

  /** A subsequence of `b` stays one when `b` grows at the end. */
  lemma {:induction false} SubsequenceExtend<T>(a: seq<T>, b: seq<T>, x: T)
    requires IsSubsequence(a, b)
    ensures IsSubsequence(a, b + [x])
    decreases |b|, 1
  {
    var bx := b + [x];
    assert bx[..|bx| - 1] == b;
    if a != [] && a[|a| - 1] == x {
      SubsequenceDropLast(a, b);
    }
  }

  /** Dropping the last element of a subsequence leaves a subsequence. */
  lemma {:induction false} SubsequenceDropLast<T>(a: seq<T>, b: seq<T>)
    requires a != [] && IsSubsequence(a, b)
    ensures IsSubsequence(a[..|a| - 1], b)
    decreases |b|, 0
  {
    var a', b' := a[..|a| - 1], b[..|b| - 1];
    assert b == b' + [b[|b| - 1]];
    if a[|a| - 1] == b[|b| - 1] {
      SubsequenceExtend(a', b', b[|b| - 1]);
    } else {
      SubsequenceDropLast(a, b');
      SubsequenceExtend(a', b', b[|b| - 1]);
    }
  }

  /** Every element of a subsequence is an element of the whole. */
  lemma {:induction false} SubsequenceMembers<T>(a: seq<T>, b: seq<T>)
    requires IsSubsequence(a, b)
    ensures forall x :: x in a ==> x in b
    decreases |b|
  {
    if a != [] {
      var b' := b[..|b| - 1];
      assert b == b' + [b[|b| - 1]];
      if a[|a| - 1] == b[|b| - 1] {
        SubsequenceMembers(a[..|a| - 1], b');
        assert a == a[..|a| - 1] + [a[|a| - 1]];
      } else {
        SubsequenceMembers(a, b');
      }
    }
  }

  /** Putting one element in front of the whole, or in front of both, keeps a subsequence. */
  lemma {:induction false} SubsequenceCons<T>(a: seq<T>, b: seq<T>, x: T)
    requires IsSubsequence(a, b)
    ensures IsSubsequence(a, [x] + b)
    ensures IsSubsequence([x] + a, [x] + b)
    decreases |b|
  {
    var xb := [x] + b;
    var xa := [x] + a;
    if b == [] {
      assert xb[..|xb| - 1] == [] && xa[..|xa| - 1] == a;
    } else {
      var b' := b[..|b| - 1];
      assert xb[..|xb| - 1] == [x] + b' && xb[|xb| - 1] == b[|b| - 1];
      if a == [] {
        SubsequenceCons(a, b', x);
      } else {
        var a' := a[..|a| - 1];
        assert xa[..|xa| - 1] == [x] + a' && xa[|xa| - 1] == a[|a| - 1];
        if a[|a| - 1] == b[|b| - 1] {
          SubsequenceCons(a', b', x);
        } else {
          SubsequenceCons(a, b', x);
        }
      }
    }
  }

  /** Every sequence is a subsequence of itself. */
  lemma {:induction false} SubsequenceReflexive<T>(a: seq<T>)
    ensures IsSubsequence(a, a)
    decreases |a|
  {
    if a != [] {
      SubsequenceReflexive(a[..|a| - 1]);
    }
  }
}

/** The handful of JavaScript string operations the core relies on. */
module Text {

  /**
   * The characters JavaScript's `trim` and the regular-expression class `\s` match:
   * the white-space and line-terminator code points of ECMA-262.
   */
  predicate IsSpace(c: char) {
    var n := c as int;
    n == 0x09 || n == 0x0A || n == 0x0B || n == 0x0C || n == 0x0D || n == 0x20 || n == 0xA0
    || n == 0x1680 || (0x2000 <= n <= 0x200A) || n == 0x2028 || n == 0x2029
    || n == 0x202F || n == 0x205F || n == 0x3000 || n == 0xFEFF
  }

  predicate AllSpace(s: string) {
    forall i :: 0 <= i < |s| ==> IsSpace(s[i])
  }

  /** Drops the leading white space. */
  function TrimStart(s: string): (r: string)
    ensures |r| <= |s| && r == s[|s| - |r|..]
    ensures AllSpace(s[..|s| - |r|])
    ensures r == [] || !IsSpace(r[0])
  {
    if s == [] || !IsSpace(s[0]) then s else TrimStart(s[1..])
  }

  /** Trimming the start of a white-space run followed by a non-space leaves what follows. */
  lemma {:induction false} TrimStartSkips(w: string, v: string)
    requires AllSpace(w) && (v == [] || !IsSpace(v[0]))
    ensures TrimStart(w + v) == v
    decreases |w|
  {
    if w != [] {
      assert (w + v)[1..] == w[1..] + v;
      TrimStartSkips(w[1..], v);
    } else {
      assert w + v == v;
    }
  }

  /** A string ending in a non-space keeps that last character when its start is trimmed. */
  lemma {:induction false} TrimStartKeepsLast(u: string)
    requires u != [] && !IsSpace(u[|u| - 1])
    ensures TrimStart(u) != [] && TrimStart(u)[|TrimStart(u)| - 1] == u[|u| - 1]
    decreases |u|
  {
    if IsSpace(u[0]) {
      TrimStartKeepsLast(u[1..]);
    }
  }

  /** Trimming the start of a string that ends in a non-space does not reach past it. */
  lemma {:induction false} TrimStartAppend(u: string, x: string)
    requires u != [] && !IsSpace(u[|u| - 1])
    ensures TrimStart(u + x) == TrimStart(u) + x
    decreases |u|
  {
    if IsSpace(u[0]) {
      assert (u + x)[1..] == u[1..] + x;
      TrimStartAppend(u[1..], x);
    }
  }

  /** Drops the trailing white space. */
  function TrimEnd(s: string): (r: string)
    ensures |r| <= |s| && r == s[..|r|]
    ensures AllSpace(s[|r|..])
    ensures r == [] || !IsSpace(r[|r| - 1])
  {
    if s == [] || !IsSpace(s[|s| - 1]) then s else TrimEnd(s[..|s| - 1])
  }

  /** String.prototype.trim */
  function Trim(s: string): string {
    TrimEnd(TrimStart(s))
  }

  /** A string trims to "" exactly when it is made only of white space (the empty-input guard). */
  lemma TrimEmptyIff(s: string)
    ensures Trim(s) == "" <==> AllSpace(s)
  {
    var t := TrimStart(s);
    if Trim(s) == "" {
      assert AllSpace(t[0..]);
      forall i | 0 <= i < |s| ensures IsSpace(s[i]) {
        if i < |s| - |t| {
          assert s[..|s| - |t|][i] == s[i];
        } else {
          assert s[i] == t[i - (|s| - |t|)];
        }
      }
    } else {
      var r := Trim(s);
      assert r == t[..|r|];
      assert !IsSpace(r[|r| - 1]);
      assert t[|r| - 1] == s[|s| - |t| + |r| - 1];
    }
  }

  /**
   * Lower-cases one character: the ASCII letters A-Z, and the Kelvin sign U+212A,
   * which Unicode lower-cases to the ASCII `k`. Every other character is kept.
   */
  function LowerChar(c: char): char {
    if 'A' <= c <= 'Z' then (c as int + 32) as char
    else if c == '\U{212A}' then 'k'
    else c
  }

  /** String.prototype.toLowerCase, restricted to the characters LowerChar maps. */
  function ToLower(s: string): (r: string)
    ensures |r| == |s|
    ensures forall i :: 0 <= i < |s| ==> r[i] == LowerChar(s[i])
  {
    seq(|s|, i requires 0 <= i < |s| => LowerChar(s[i]))
  }

  /** `s` has `p` as a contiguous piece starting at `i`. */
  predicate OccursAt(s: string, p: string, i: int) {
    0 <= i && i + |p| <= |s| && s[i..i + |p|] == p
  }

  /** String.prototype.includes */
  function Contains(s: string, p: string): (r: bool)
    ensures r <==> exists i :: OccursAt(s, p, i)
    decreases |s|
  {
    if |p| > |s| then
      false
    else if s[..|p|] == p then
      assert OccursAt(s, p, 0);
      true
    else
      var rest := Contains(s[1..], p);
      if rest then
        var i :| OccursAt(s[1..], p, i);
        assert s[i + 1..i + 1 + |p|] == s[1..][i..i + |p|];
        assert OccursAt(s, p, i + 1);
        true
      else
        assert !OccursAt(s, p, 0);
        forall i | OccursAt(s, p, i) && i > 0 ensures OccursAt(s[1..], p, i - 1) {
          assert s[1..][i - 1..i - 1 + |p|] == s[i..i + |p|];
        }
        false
  }

  /** String.prototype.startsWith */
  predicate StartsWith(s: string, p: string) {
    |p| <= |s| && s[..|p|] == p
  }

  /** The decimal digit for d: '0' to '9'. */
  function DigitChar(d: nat): (c: char)
    requires d < 10
    ensures '0' <= c <= '9' && c as int - '0' as int == d
  {
    ('0' as int + d) as char
  }

  /** The decimal text of a natural number, as a template literal prints an array index. */
  function NatToString(n: nat): (r: string)
    ensures |r| >= 1
    ensures |r| == 1 <==> n < 10
    decreases n
  {
    if n < 10 then [DigitChar(n)] else NatToString(n / 10) + [DigitChar(n % 10)]
  }

  /** Distinct indices print differently, so index-based ids never collide. */
  lemma {:induction false} NatToStringInjective(a: nat, b: nat)
    requires NatToString(a) == NatToString(b)
    ensures a == b
    decreases a
  {
    if a < 10 && b < 10 {
      assert DigitChar(a) == NatToString(a)[0] == NatToString(b)[0] == DigitChar(b);
    } else if a >= 10 && b >= 10 {
      var sa, sb := NatToString(a), NatToString(b);
      assert sa[|sa| - 1] == DigitChar(a % 10) && sb[|sb| - 1] == DigitChar(b % 10);
      assert a % 10 == b % 10;
      assert NatToString(a / 10) == sa[..|sa| - 1] == sb[..|sb| - 1] == NatToString(b / 10);
      NatToStringInjective(a / 10, b / 10);
      assert a == (a / 10) * 10 + a % 10 && b == (b / 10) * 10 + b % 10;
    }
  }
}
