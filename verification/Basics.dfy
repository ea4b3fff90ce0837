/** Declarations shared by the models. */
module Basics {

  // One past the largest unsigned 64-bit value.
  const U64 := 0x1_0000_0000_0000_0000

  datatype Option<T> = None | Some(value: T)

  // Timers count nanoseconds, the broker milliseconds, and a configured TTL is in seconds.
  function Ms(t: int): (m: int)
    ensures m * 1_000_000 <= t < (m + 1) * 1_000_000
  {
    t / 1_000_000
  }

  lemma MsMonotone(a: int, b: int)
    requires a <= b
    ensures Ms(a) <= Ms(b)
  {
  }

  // The keepalive interval, half the TTL.
  function Half(ttl: int): (h: int)
    ensures 2 * h == ttl * 1_000_000_000
  {
    ttl * 500 * 1_000_000
  }

  function Pow2(k: nat): (p: nat)
    ensures p >= 1
  {
    if k == 0 then 1 else 2 * Pow2(k - 1)
  }

  ghost predicate Distinct<T>(list: seq<T>) {
    forall i, j :: 0 <= i < j < |list| ==> list[i] != list[j]
  }

  function Elements<T(==)>(list: seq<T>): set<T> {
    set x | x in list
  }

  // The list with the first occurrence of `x` taken out.
  function Without<T(==)>(list: seq<T>, x: T): (r: seq<T>)
    ensures x !in list ==> r == list
  {
    if list == [] then [] else if list[0] == x then list[1..] else [list[0]] + Without(list[1..], x)
  }

  lemma {:induction false} WithoutAt<T>(list: seq<T>, x: T, i: nat)
    requires i < |list| && list[i] == x && x !in list[..i]
    ensures Without(list, x) == list[..i] + list[i + 1..]
  {
    if i > 0 {
      assert list[..i][0] == list[0] && list[1..][..i - 1] == list[..i][1..];
      WithoutAt(list[1..], x, i - 1);
    }
  }

  // Search and splice, as the source removes an element of a slice.
  method Cut<T(==)>(list: seq<T>, x: T) returns (rest: seq<T>, found: bool)
    ensures found == (x in list) && rest == Without(list, x)
  {
    var i := 0;
    while i < |list| && list[i] != x
      invariant 0 <= i <= |list| && x !in list[..i]
    {
      i := i + 1;
    }
    found := i < |list|;
    rest := if found then list[..i] + list[i + 1..] else list;
    if found {
      WithoutAt(list, x, i);
    } else {
      assert list[..i] == list;
    }
  }
}
