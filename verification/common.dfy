/**
 * Helpers shared by the mapper, the reward engine and the prompt builder:
 * optional values, the `clamp` both Python modules define, means over
 * histories, bounded FIFO appends (a `deque(maxlen=...)`), counting,
 * decimal rendering of integers and `str.join`.
 */
module Common {

  /** A dictionary key that may be missing, or a value that may be `None`. */
  datatype Option<T> = None | Some(value: T) {
    /** `d.get(key, default)` */
    function GetOr(default: T): T {
      match this
      case Some(v) => v
      case None => default
    }
  }

  function Min(a: real, b: real): real { if b <= a then b else a }

  function Max(a: real, b: real): real { if b > a then b else a }

  function Abs(x: real): real { if x < 0.0 then -x else x }

  /** `clamp(x, a, b) = max(a, min(b, x))`: never rejects, always pulls into range. */
  function Clamp(x: real, lo: real, hi: real): (r: real)
    ensures lo <= hi ==> lo <= r <= hi
    ensures lo <= x <= hi ==> r == x
    ensures x < lo ==> r == lo
    ensures lo <= hi < x ==> r == hi
  {
    Max(lo, Min(hi, x))
  }

  /** The elements of a list, as a set (`set(xs)`, and the meaning of `x in xs`). */
  function SetOf<T>(s: seq<T>): set<T> { set x | x in s }

  /** No element occurs twice. */
  predicate NoDup<T(==)>(s: seq<T>) {
    forall i, j | 0 <= i < j < |s| :: s[i] != s[j]
  }

  // ---------- sums and means ----------

  /** Python's `sum`, adding from the left. */
  function Sum(s: seq<real>): real {
    if s == [] then 0.0 else Sum(s[..|s| - 1]) + s[|s| - 1]
  }

  /** `sum(xs) / len(xs) if xs else 0.0` */
  function Mean(s: seq<real>): (m: real)
    ensures s == [] ==> m == 0.0
    ensures s != [] ==> m * (|s| as real) == Sum(s)
  {
    if s == [] then 0.0 else Sum(s) / (|s| as real)
  }

  lemma {:induction false} SumWithin(s: seq<real>, lo: real, hi: real)
    requires forall i | 0 <= i < |s| :: lo <= s[i] <= hi
    ensures (|s| as real) * lo <= Sum(s) <= (|s| as real) * hi
  {
    if s != [] {
      SumWithin(s[..|s| - 1], lo, hi);
    }
  }

  /** A mean of values that all lie in [lo, hi] lies in [lo, hi] as well. */
  lemma MeanWithin(s: seq<real>, lo: real, hi: real)
    ensures (forall i | 0 <= i < |s| :: lo <= s[i] <= hi) && s != [] ==> lo <= Mean(s) <= hi
  {
    if (forall i | 0 <= i < |s| :: lo <= s[i] <= hi) && s != [] {
      SumWithin(s, lo, hi);
      var n := |s| as real;
      assert Mean(s) == Sum(s) / n;
    }
  }

  /** A one-element history averages to that element. */
  lemma MeanSingleton(x: real)
    ensures Mean([x]) == x
  {
    assert [x][..0] == [];
    assert Sum([x]) == x;
  }

  // ---------- bounded FIFO ----------

  /**
   * `d.append(x)` on `d = deque(..., maxlen=cap)`: the new element goes to the
   * end and, once the deque is full, the oldest one is dropped.
   */
  function BoundedAppend<T>(s: seq<T>, x: T, cap: nat): (r: seq<T>)
    ensures |r| == if |s| + 1 <= cap then |s| + 1 else cap
    ensures cap > 0 ==> r[|r| - 1] == x
    ensures |s| + 1 <= cap ==> r[..|s|] == s
    ensures 0 < cap <= |s| ==> r[..|r| - 1] == s[|s| - cap + 1..]
  {
    var t := s + [x];
    if |t| <= cap then t else t[|t| - cap..]
  }

  // ---------- counting ----------

  /** `list.count(x)` */
  function Count<T(==)>(s: seq<T>, x: T): (n: nat)
    ensures n <= |s|
    ensures n > 0 <==> x in s
  {
    if s == [] then 0
    else
      assert s == s[..|s| - 1] + [s[|s| - 1]];
      Count(s[..|s| - 1], x) + (if s[|s| - 1] == x then 1 else 0)
  }

  lemma {:induction false} CountConcat<T>(a: seq<T>, b: seq<T>, x: T)
    ensures Count(a + b, x) == Count(a, x) + Count(b, x)
  {
    if b != [] {
      assert (a + b)[..|a + b| - 1] == a + b[..|b| - 1];
      CountConcat(a, b[..|b| - 1], x);
    } else {
      assert a + b == a;
    }
  }

  /**
   * Appending x to a full or non-full bounded FIFO gains one occurrence of x
   * and loses at most one (the evicted oldest entry).
   */
  lemma CountBoundedAppend<T>(s: seq<T>, x: T, cap: nat)
    requires 0 < cap && |s| <= cap
    ensures Count(s, x) <= Count(BoundedAppend(s, x, cap), x) <= Count(s, x) + 1
  {
    CountConcat(s, [x], x);
    assert [x][..0] == [];
    if |s| + 1 > cap {
      CountDropFirst(s + [x], x);
    }
  }

  lemma CountDropFirst<T>(t: seq<T>, x: T)
    requires t != []
    ensures Count(t, x) - 1 <= Count(t[1..], x) <= Count(t, x)
  {
    assert t == [t[0]] + t[1..];
    CountConcat([t[0]], t[1..], x);
    assert [t[0]][..0] == [];
  }

  // ---------- decimal rendering ----------

  function DigitChar(d: nat): (c: char)
    requires d < 10
    ensures '0' <= c <= '9'
  {
    (48 + d) as char
  }

  function DigitValue(c: char): nat {
    if '0' <= c <= '9' then c as int - 48 else 0
  }

  /** `str(n)` for a non-negative integer. */
  function NatToDecimal(n: nat): (s: string)
    ensures |s| >= 1
    ensures forall i | 0 <= i < |s| :: '0' <= s[i] <= '9'
  {
    if n < 10 then [DigitChar(n)] else NatToDecimal(n / 10) + [DigitChar(n % 10)]
  }

  /** `str(i)` for any integer. */
  function IntToDecimal(i: int): string {
    if i < 0 then "-" + NatToDecimal(-i) else NatToDecimal(i)
  }

  /** `int(s)` for a string of decimal digits: the inverse of NatToDecimal. */
  function DecimalValue(s: string): nat {
    if s == [] then 0 else DecimalValue(s[..|s| - 1]) * 10 + DigitValue(s[|s| - 1])
  }

  lemma {:induction false} DecimalRoundTrip(n: nat)
    ensures DecimalValue(NatToDecimal(n)) == n
  {
    var s := NatToDecimal(n);
    if n >= 10 {
      DecimalRoundTrip(n / 10);
      assert s[..|s| - 1] == NatToDecimal(n / 10);
    } else {
      assert s[..0] == [];
    }
  }

  /** Distinct numbers are rendered as distinct strings. */
  lemma DecimalInjective(a: nat, b: nat)
    requires NatToDecimal(a) == NatToDecimal(b)
    ensures a == b
  {
    DecimalRoundTrip(a);
    DecimalRoundTrip(b);
  }

  // ---------- joining ----------

  /** `sep.join(parts)` */
  function Join(sep: string, parts: seq<string>): string {
    if |parts| == 0 then ""
    else if |parts| == 1 then parts[0]
    else parts[0] + sep + Join(sep, parts[1..])
  }

  /** Every part occurs, unchanged and contiguous, in the joined string. */
  lemma {:induction false} JoinHasPart(sep: string, parts: seq<string>, i: nat) returns (pre: string, post: string)
    requires i < |parts|
    ensures Join(sep, parts) == pre + parts[i] + post
  {
    if |parts| == 1 {
      pre, post := "", "";
    } else if i == 0 {
      pre, post := "", sep + Join(sep, parts[1..]);
    } else {
      var p, q := JoinHasPart(sep, parts[1..], i - 1);
      pre, post := parts[0] + sep + p, q;
    }
  }
}
