/** Small shared vocabulary: optional values, Python's list.remove, integer
    rounding of reals and 2-D real vectors (pygame's Vector2 and pixel tuples). */
module Common {

  datatype Option<T> = None | Some(value: T)

  /** A 2-D vector of reals: a pixel position, a scroll shift or a velocity. */
  datatype Vec = Vec(x: real, y: real)

  /** Python's `math.ceil` applied to a real. */
  function Ceil(r: real): (c: int)
    ensures c as real - 1.0 < r <= c as real
  {
    -((-r).Floor)
  }

  /** `ceil(a / b)` for a positive integer divisor, as Python computes `ceil(a / b)`. */
  function CeilDiv(a: int, b: int): (c: int)
    requires b > 0
    ensures (c - 1) * b < a <= c * b
  {
    -((-a) / b)
  }

  /** Python's `list.remove(x)`: drops the first occurrence of `x`; the list
      is returned unchanged when `x` is absent (where Python would raise). */
  function RemoveFirst<T(==)>(s: seq<T>, x: T): (r: seq<T>)
    ensures x in s ==> |r| == |s| - 1
    ensures x !in s ==> r == s
  {
    if s == [] then []
    else if s[0] == x then s[1..]
    else [s[0]] + RemoveFirst(s[1..], x)
  }

  /** `list.remove` takes away one copy of `x` when there is one and nothing
      otherwise: exactly multiset difference. */
  lemma {:induction false} RemoveFirstMultiset<T>(s: seq<T>, x: T)
    ensures multiset(RemoveFirst(s, x)) == multiset(s) - multiset{x}
  {
    if s != [] {
      assert s == [s[0]] + s[1..];
      if s[0] != x {
        RemoveFirstMultiset(s[1..], x);
      }
    }
  }

  /** Removing `x` where its first occurrence sits right after a prefix that
      does not hold it cuts exactly that element out. */
  lemma {:induction false} RemoveFirstAt<T>(a: seq<T>, x: T, b: seq<T>)
    requires x !in a
    ensures RemoveFirst(a + [x] + b, x) == a + b
  {
    var s := a + [x] + b;
    if a == [] {
      assert s[0] == x && s[1..] == b;
    } else {
      assert s[0] == a[0] && a[0] != x;
      assert s[1..] == a[1..] + [x] + b;
      RemoveFirstAt(a[1..], x, b);
      assert a + b == [a[0]] + (a[1..] + b);
    }
  }
}
