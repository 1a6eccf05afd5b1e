/**
 * The JavaScript number and string primitives the label generator relies on, stated over
 * `real`, `int` and `seq<char>`: `Math.floor`, `Math.round`, the truncating remainder `%`,
 * `String.prototype.substring(0, n)`, `endsWith`, `includes` and an ASCII `toLowerCase`.
 */
module JsNumbers {

  /** Truncation toward zero, the integer part that JavaScript's `%` divides by. */
  function Trunc(x: real): (r: int)
    ensures x >= 0.0 ==> r as real <= x < r as real + 1.0
    ensures x < 0.0 ==> r as real - 1.0 < x <= r as real
  {
    if x >= 0.0 then x.Floor else -((-x).Floor)
  }

  /** JavaScript's `a % b` on numbers: the remainder of truncating division, sign of `a`. */
  function JsRem(a: real, b: real): (r: real)
    requires b != 0.0
    ensures a >= 0.0 && b > 0.0 ==> 0.0 <= r < b
    ensures a < 0.0 && b > 0.0 ==> -b < r <= 0.0
  {
    var q := Trunc(a / b);
    RemBounds(a, b, q);
    a - q as real * b
  }

  lemma RemBounds(a: real, b: real, q: int)
    requires b != 0.0 && q == Trunc(a / b)
    ensures a >= 0.0 && b > 0.0 ==> 0.0 <= a - q as real * b < b
    ensures a < 0.0 && b > 0.0 ==> -b < a - q as real * b <= 0.0
  {
    var t := a / b;
    if a >= 0.0 && b > 0.0 {
      MulBounds(q as real, t, b);
      calc {
        a;
        == t * b;
        < q as real * b + b;
      }
      calc {
        q as real * b;
        <= t * b;
        == a;
      }
    } else if a < 0.0 && b > 0.0 {
      MulBoundsNeg(q as real, t, b);
      calc {
        a;
        == t * b;
        <= q as real * b;
      }
      calc {
        q as real * b - b;
        < t * b;
        == a;
      }
    }
  }

  lemma MulBounds(q: real, t: real, b: real)
    requires b > 0.0 && q <= t < q + 1.0
    ensures q * b <= t * b < q * b + b
  {
  }

  lemma MulBoundsNeg(q: real, t: real, b: real)
    requires b > 0.0 && q - 1.0 < t <= q
    ensures q * b - b < t * b <= q * b
  {
  }

  /** The quotient `JsRem` subtracts: `a % b == a - q * b` for an integer `q`. */
  function JsRemQuotient(a: real, b: real): (q: int)
    requires b != 0.0
    ensures JsRem(a, b) == a - q as real * b
  {
    Trunc(a / b)
  }

  /** For a non-negative `a`, any integer `k` that leaves a remainder in [0, b) is the quotient. */
  lemma {:induction false} RemUnique(a: real, b: real, k: int)
    requires a >= 0.0 && b > 0.0 && 0.0 <= a - k as real * b < b
    ensures JsRem(a, b) == a - k as real * b
  {
    var q := JsRemQuotient(a, b);
    var d := q - k;
    var rq, rk := a - q as real * b, a - k as real * b;
    assert 0.0 <= rq < b;
    calc {
      d as real * b;
      == (q as real - k as real) * b;
      == q as real * b - k as real * b;
      == rk - rq;
    }
    OnlyZeroFits(d, b, rk - rq);
  }

  /** The only integer multiple of `b > 0` strictly between -b and b is 0. */
  lemma OnlyZeroFits(d: int, b: real, x: real)
    requires b > 0.0 && -b < x < b && d as real * b == x
    ensures d == 0
  {
    AtLeastOnce(d as real, b);
  }

  lemma AtLeastOnce(t: real, b: real)
    requires b > 0.0
    ensures t >= 1.0 ==> t * b >= b
    ensures t <= -1.0 ==> t * b <= -b
  {
    if t >= 1.0 {
      MulBounds(1.0, 1.0, b);
      assert t * b == b + (t - 1.0) * b;
    } else if t <= -1.0 {
      assert t * b == -b + (t + 1.0) * b;
    }
  }

  /** `Math.round`: the nearest integer, halves rounded up, i.e. `floor(x + 0.5)`. */
  function Round(x: real): (r: int)
    ensures r as real - 0.5 <= x < r as real + 0.5
  {
    (x + 0.5).Floor
  }

  /** `s.substring(0, n)`: a negative end counts as 0, an end past the string as its length. */
  function Prefix(s: string, n: int): (r: string)
    ensures |r| == if n <= 0 then 0 else if n >= |s| then |s| else n
    ensures r <= s
  {
    if n <= 0 then [] else if n >= |s| then s else s[..n]
  }

  /** `s.endsWith(suffix)`. */
  predicate EndsWith(s: string, suffix: string) {
    |suffix| <= |s| && s[|s| - |suffix|..] == suffix
  }

  /** `s.includes(t)`: some position of `s` starts an occurrence of `t`. */
  predicate Includes(s: string, t: string)
    decreases |s|
  {
    t <= s || (|s| > 0 && Includes(s[1..], t))
  }

  /** `t` occurs in `s` starting at offset `i`. */
  predicate OccursAt(s: string, t: string, i: int) {
    0 <= i <= |s| - |t| && s[i..i + |t|] == t
  }

  /** `Includes` finds exactly the occurrences. */
  lemma {:induction false} IncludesIff(s: string, t: string)
    ensures Includes(s, t) <==> exists i :: OccursAt(s, t, i)
    decreases |s|
  {
    if t <= s {
      assert OccursAt(s, t, 0);
    } else if |s| > 0 {
      IncludesIff(s[1..], t);
      if exists i :: OccursAt(s[1..], t, i) {
        var i :| OccursAt(s[1..], t, i);
        assert s[i + 1..i + 1 + |t|] == s[1..][i..i + |t|];
        assert OccursAt(s, t, i + 1);
      }
      if exists i :: OccursAt(s, t, i) {
        var i :| OccursAt(s, t, i);
        if i > 0 {
          assert s[1..][i - 1..i - 1 + |t|] == s[i..i + |t|];
          assert OccursAt(s[1..], t, i - 1);
        }
      }
    }
  }

  /** The empty string is included in every string. */
  lemma IncludesEmpty(s: string)
    ensures Includes(s, "")
  {
  }

  /** `toLowerCase` on the ASCII letters; every other character is kept. */
  function LowerChar(c: char): (r: char)
    ensures 'A' <= c <= 'Z' ==> 'a' <= r <= 'z' && r as int - 'a' as int == c as int - 'A' as int
    ensures !('A' <= c <= 'Z') ==> r == c
  {
    if 'A' <= c <= 'Z' then (c as int - 'A' as int + 'a' as int) as char else c
  }

  function ToLower(s: string): (r: string)
    ensures |r| == |s|
    ensures forall i :: 0 <= i < |s| ==> r[i] == LowerChar(s[i])
  {
    seq(|s|, i requires 0 <= i < |s| => LowerChar(s[i]))
  }

  /** Lower-casing twice is lower-casing once. */
  lemma ToLowerIdempotent(s: string)
    ensures ToLower(ToLower(s)) == ToLower(s)
  {
  }
}
