/** Small shared vocabulary: options, results, byte strings and facts about slices. */
module Basics {

  datatype Option<+T> = None | Some(value: T)

  datatype Result<+T, +E> = Ok(value: T) | Err(error: E)

  type Byte = bv8
  type Bytes = seq<Byte>

  function Min(a: int, b: int): int { if a <= b then a else b }

  function Max(a: int, b: int): int { if a >= b then a else b }

  /** Concatenation of all pieces, in order. */
  function Flatten<T>(pieces: seq<seq<T>>): seq<T> {
    if pieces == [] then [] else pieces[0] + Flatten(pieces[1..])
  }

  lemma {:induction false} FlattenAppend<T>(a: seq<seq<T>>, b: seq<seq<T>>)
    ensures Flatten(a + b) == Flatten(a) + Flatten(b)
  {
    if a == [] {
      assert a + b == b;
    } else {
      assert (a + b)[1..] == a[1..] + b;
      FlattenAppend(a[1..], b);
    }
  }

  lemma {:induction false} FlattenSnoc<T>(a: seq<seq<T>>, x: seq<T>)
    ensures Flatten(a + [x]) == Flatten(a) + x
  {
    FlattenAppend(a, [x]);
    assert Flatten([x]) == x + Flatten([]);
  }

  /** Two adjacent windows of a sequence join into one. */
  lemma JoinWindows<T>(s: seq<T>, a: nat, b: nat, c: nat)
    requires a <= b <= c <= |s|
    ensures s[a..b] + s[b..c] == s[a..c]
  {
  }

  lemma DivUnique(n: int, d: int, q: int, r: int)
    requires 0 <= r < d && n == q * d + r
    ensures n / d == q && n % d == r
  {
    var e := n / d;
    assert n == e * d + n % d;
    if e < q {
      MulAtLeast(q - e, d);
    } else if e > q {
      MulAtLeast(e - q, d);
    }
  }

  lemma MulAtLeast(k: int, d: int)
    requires k >= 1 && d >= 0
    ensures k * d >= d
  {
  }

  lemma MulMonotone(a: int, b: int, d: nat)
    ensures a <= b ==> a * d <= b * d
  {
  }

  lemma AtMostQuotient(m: nat, n: nat, d: nat)
    requires d > 0 && m * d <= n
    ensures m <= n / d
  {
    var q := n / d;
    assert n == q * d + n % d && (q + 1) * d == q * d + d;
    MulMonotone(q + 1, m, d);
  }

  /** The index i places after `start`, wrapping around. */
  function Circular(n: nat, start: nat, i: nat): (k: nat)
    requires n > 0
    ensures k < n
  {
    (start + i) % n
  }

  /** Counting up from any start, every index is reached within n places. */
  lemma Reaches(n: nat, start: nat, k: nat) returns (j: nat)
    requires k < n
    ensures j < n && Circular(n, start, j) == k
  {
    var r, q := start % n, start / n;
    assert start == q * n + r;
    j := if k >= r then k - r else k + n - r;
    var full := if k >= r then q else q + 1;
    assert start + j == full * n + k by {
      assert (q + 1) * n == q * n + n;
    }
    DivUnique(start + j, n, full, k);
  }

  // ------------------------------------------------------------------ decimal digits

  predicate IsDigit(c: char) { '0' <= c <= '9' }

  predicate AllDigits(s: string) { forall c <- s :: IsDigit(c) }

  /** The number the digits write, leading zeros and all. */
  function Value(digits: string): nat
    requires AllDigits(digits)
  {
    if digits == "" then 0
    else
      var n := |digits| - 1;
      assert IsDigit(digits[n]);
      Value(digits[..n]) * 10 + (digits[n] as int - '0' as int)
  }
}
