/**
 The byte level of the stream protocol: big-endian integers, strings, blobs and arrays.
 A writer is given the bytes that follow and puts its own in front; a reader takes a value
 off the front and returns the rest.
 */
module Wire {
  import opened Prelude

  type byte = x: int | 0 <= x < 256

  datatype Got<+T> = Got(value: T, rest: seq<byte>)

  const MAX_STRING := 0x7FFF
  const MAX_BLOB := 0x7FFF_FFFF

  // ---- integers

  function Pow256(k: nat): (p: nat)
    ensures p >= 1
  {
    if k == 0 then 1 else 256 * Pow256(k - 1)
  }

  lemma Widths()
    ensures Pow256(1) == 256 && Pow256(2) == U16 && Pow256(4) == U32 && Pow256(8) == U64
  {
    assert Pow256(2) == 256 * Pow256(1);
    assert Pow256(3) == 256 * Pow256(2);
    assert Pow256(4) == 256 * Pow256(3);
    assert Pow256(5) == 256 * Pow256(4);
    assert Pow256(6) == 256 * Pow256(5);
    assert Pow256(7) == 256 * Pow256(6);
  }

  /** The `k` big-endian bytes of `v`. */
  function BigEndian(k: nat, v: nat): (s: seq<byte>)
    ensures |s| == k
  {
    if k == 0 then [] else BigEndian(k - 1, v / 256) + [v % 256]
  }

  function FromBigEndian(s: seq<byte>): nat {
    if s == [] then 0 else 256 * FromBigEndian(s[..|s| - 1]) + s[|s| - 1]
  }

  lemma {:induction false} BigEndianInverse(k: nat, v: nat)
    requires v < Pow256(k)
    ensures FromBigEndian(BigEndian(k, v)) == v
  {
    if k > 0 {
      var s := BigEndian(k, v);
      BigEndianInverse(k - 1, v / 256);
      assert s[..|s| - 1] == BigEndian(k - 1, v / 256);
    }
  }

  lemma {:induction false} FromBigEndianBound(s: seq<byte>)
    ensures FromBigEndian(s) < Pow256(|s|)
  {
    if s != [] { FromBigEndianBound(s[..|s| - 1]); }
  }

  /** The other direction: no two byte strings of one width denote the same number. */
  lemma {:induction false} FromBigEndianInverse(s: seq<byte>)
    ensures BigEndian(|s|, FromBigEndian(s)) == s
  {
    if s != [] {
      var init := s[..|s| - 1];
      FromBigEndianInverse(init);
      assert FromBigEndian(s) / 256 == FromBigEndian(init);
      assert s == init + [s[|s| - 1]];
    }
  }

  /** Two's complement in `k` bytes. */
  function ToSigned(k: nat, u: nat): int {
    if 2 * u >= Pow256(k) then u - Pow256(k) else u
  }

  predicate FitsSigned(k: nat, v: int) {
    0 <= 2 * v + Pow256(k) && 2 * v < Pow256(k)
  }

  function ToUnsigned(k: nat, v: int): (u: nat)
    requires FitsSigned(k, v)
    ensures u < Pow256(k)
  {
    if v < 0 then v + Pow256(k) else v
  }

  lemma SignedInverse(k: nat, v: int)
    requires FitsSigned(k, v)
    ensures ToSigned(k, ToUnsigned(k, v)) == v
  {
  }

  function PutUint(k: nat, v: nat, tail: seq<byte>): (s: seq<byte>)
    ensures |s| == k + |tail|
  {
    BigEndian(k, v) + tail
  }

  function GetUint(k: nat, s: seq<byte>): Option<Got<nat>> {
    if |s| < k then None else Some(Got(FromBigEndian(s[..k]), s[k..]))
  }

  function GetInt(k: nat, s: seq<byte>): Option<Got<int>> {
    var u :- GetUint(k, s);
    Some(Got(ToSigned(k, u.value), u.rest))
  }

  function PutInt(k: nat, v: int, tail: seq<byte>): seq<byte>
    requires FitsSigned(k, v)
  {
    PutUint(k, ToUnsigned(k, v), tail)
  }

  lemma UintRoundTrip(k: nat, v: nat, tail: seq<byte>)
    requires v < Pow256(k)
    ensures GetUint(k, PutUint(k, v, tail)) == Some(Got(v, tail))
  {
    BigEndianInverse(k, v);
    assert PutUint(k, v, tail)[..k] == BigEndian(k, v);
    assert PutUint(k, v, tail)[k..] == tail;
  }

  lemma IntRoundTrip(k: nat, v: int, tail: seq<byte>)
    requires FitsSigned(k, v)
    ensures GetInt(k, PutInt(k, v, tail)) == Some(Got(v, tail))
  {
    UintRoundTrip(k, ToUnsigned(k, v), tail);
    SignedInverse(k, v);
  }

  /** A length prefix: a signed integer that is in fact not negative. */
  lemma LengthRoundTrip(k: nat, n: nat, tail: seq<byte>)
    requires 2 * n < Pow256(k)
    ensures GetInt(k, PutUint(k, n, tail)) == Some(Got(n, tail))
  {
    UintRoundTrip(k, n, tail);
  }

  // ---- raw bytes, strings and blobs

  function GetBytes(n: nat, s: seq<byte>): Option<Got<seq<byte>>> {
    if |s| < n then None else Some(Got(s[..n], s[n..]))
  }

  lemma BytesRoundTrip(b: seq<byte>, tail: seq<byte>)
    ensures GetBytes(|b|, b + tail) == Some(Got(b, tail))
  {
    assert (b + tail)[..|b|] == b && (b + tail)[|b|..] == tail;
  }

  function PutString(v: seq<byte>, tail: seq<byte>): (s: seq<byte>)
    ensures |s| == 2 + |v| + |tail|
  {
    PutUint(2, |v|, v + tail)
  }

  /** A negative length reads as an empty string. */
  function GetString(s: seq<byte>): Option<Got<seq<byte>>> {
    var length :- GetInt(2, s);
    if length.value <= 0 then Some(Got([], length.rest)) else GetBytes(length.value, length.rest)
  }

  lemma StringRoundTrip(v: seq<byte>, tail: seq<byte>)
    requires |v| <= MAX_STRING
    ensures GetString(PutString(v, tail)) == Some(Got(v, tail))
  {
    Widths();
    LengthRoundTrip(2, |v|, v + tail);
    BytesRoundTrip(v, tail);
    if v == [] { assert v + tail == tail; }
  }

  function PutBlob(v: seq<byte>, tail: seq<byte>): (s: seq<byte>)
    ensures |s| == 4 + |v| + |tail|
  {
    PutUint(4, |v|, v + tail)
  }

  function GetBlob(s: seq<byte>): Option<Got<seq<byte>>> {
    var length :- GetInt(4, s);
    if length.value <= 0 then Some(Got([], length.rest)) else GetBytes(length.value, length.rest)
  }

  lemma BlobRoundTrip(v: seq<byte>, tail: seq<byte>)
    requires |v| <= MAX_BLOB
    ensures GetBlob(PutBlob(v, tail)) == Some(Got(v, tail))
  {
    Widths();
    LengthRoundTrip(4, |v|, v + tail);
    BytesRoundTrip(v, tail);
    if v == [] { assert v + tail == tail; }
  }

  // ---- arrays over any element codec

  type Put<!T> = (T, seq<byte>) -> seq<byte>
  type Get<!T> = seq<byte> -> Option<Got<T>>

  /** The element codec decodes what it wrote and consumes exactly that. */
  ghost predicate RoundTrips<T(!new)>(put: Put<T>, get: Get<T>, ok: T -> bool) {
    forall x, tail :: ok(x) ==> get(put(x, tail)) == Some(Got(x, tail))
  }

  ghost predicate HasSize<T(!new)>(put: Put<T>, size: T -> nat) {
    forall x, tail :: |put(x, tail)| == size(x) + |tail|
  }

  function PutAll<T>(put: Put<T>, xs: seq<T>, tail: seq<byte>): seq<byte> {
    if xs == [] then tail else put(xs[0], PutAll(put, xs[1..], tail))
  }

  function PutArray<T>(put: Put<T>, xs: seq<T>, tail: seq<byte>): seq<byte> {
    PutUint(4, |xs|, PutAll(put, xs, tail))
  }

  function GetAll<T>(get: Get<T>, n: nat, s: seq<byte>): Option<Got<seq<T>>>
    decreases n
  {
    if n == 0 then Some(Got([], s))
    else
      var x :- get(s);
      var xs :- GetAll(get, n - 1, x.rest);
      Some(Got([x.value] + xs.value, xs.rest))
  }

  function GetArray<T>(get: Get<T>, s: seq<byte>): Option<Got<seq<T>>> {
    var length :- GetInt(4, s);
    if length.value <= 0 then Some(Got([], length.rest)) else GetAll(get, length.value, length.rest)
  }

  function SizeSum<T>(size: T -> nat, xs: seq<T>): nat {
    if xs == [] then 0 else size(xs[0]) + SizeSum(size, xs[1..])
  }

  /** BinaryBuffer::serialized_size over a container. */
  function ArraySize<T>(size: T -> nat, xs: seq<T>): nat {
    4 + SizeSum(size, xs)
  }

  lemma {:induction false} AllRoundTrip<T(!new)>(put: Put<T>, get: Get<T>, ok: T -> bool, xs: seq<T>, tail: seq<byte>)
    requires RoundTrips(put, get, ok) && forall x :: x in xs ==> ok(x)
    ensures GetAll(get, |xs|, PutAll(put, xs, tail)) == Some(Got(xs, tail))
    decreases |xs|
  {
    if xs != [] {
      AllRoundTrip(put, get, ok, xs[1..], tail);
      assert ok(xs[0]);
      assert xs == [xs[0]] + xs[1..];
    }
  }

  /** Composite round trip: an array decodes to itself as soon as its elements do. */
  lemma ArrayRoundTrip<T(!new)>(put: Put<T>, get: Get<T>, ok: T -> bool, xs: seq<T>, tail: seq<byte>)
    requires RoundTrips(put, get, ok) && (forall x :: x in xs ==> ok(x)) && |xs| <= MAX_BLOB
    ensures GetArray(get, PutArray(put, xs, tail)) == Some(Got(xs, tail))
  {
    Widths();
    LengthRoundTrip(4, |xs|, PutAll(put, xs, tail));
    AllRoundTrip(put, get, ok, xs, tail);
  }

  lemma {:induction false} AllSize<T(!new)>(put: Put<T>, size: T -> nat, xs: seq<T>, tail: seq<byte>)
    requires HasSize(put, size)
    ensures |PutAll(put, xs, tail)| == SizeSum(size, xs) + |tail|
    decreases |xs|
  {
    if xs != [] { AllSize(put, size, xs[1..], tail); }
  }

  lemma ArrayHasSize<T(!new)>(put: Put<T>, size: T -> nat, xs: seq<T>, tail: seq<byte>)
    requires HasSize(put, size)
    ensures |PutArray(put, xs, tail)| == ArraySize(size, xs) + |tail|
  {
    AllSize(put, size, xs, tail);
  }
}
