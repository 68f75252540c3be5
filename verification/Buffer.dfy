/** BinaryBuffer: cursors over a growing byte vector, and the array loops of its templates. */
module Buffer {
  import opened Prelude
  import opened Wire

  const MAX_SIZE: nat := U32 - 1

  function Zeros(n: nat): (s: seq<byte>)
    ensures |s| == n
  {
    seq(n, _ => 0)
  }

  /** std::vector::resize. */
  function Resized(s: seq<byte>, n: nat): (r: seq<byte>)
    ensures |r| == n
  {
    if n <= |s| then s[..n] else s + Zeros(n - |s|)
  }

  /** serialized_size over a container: the length of what WriteArray will write. */
  method SerializedArraySize<T(!new)>(put: Put<T>, elemSize: T -> nat, xs: seq<T>) returns (size: nat)
    requires HasSize(put, elemSize)
    ensures size == |PutArray(put, xs, [])|
  {
    size := 4;
    for i := 0 to |xs|
      invariant size + SizeSum(elemSize, xs[i..]) == ArraySize(elemSize, xs)
    {
      assert xs[i..][1..] == xs[i + 1..];
      size := size + elemSize(xs[i]);
    }
    ArrayHasSize(put, elemSize, xs, []);
  }

  class BinaryBuffer {
    var bytes: seq<byte>
    var readCursor: nat
    var writeCursor: nat

    constructor ()
      ensures bytes == [] && readCursor == 0 && writeCursor == 0
    {
      bytes, readCursor, writeCursor := [], 0, 0;
    }

    /** What the reads have not taken yet. */
    function Rest(): seq<byte>
      reads this
    {
      if readCursor <= |bytes| then bytes[readCursor..] else []
    }

    /** What a write keeps in front of what it adds. */
    function Written(): seq<byte>
      reads this
    {
      Resized(bytes, writeCursor)
    }

    // ---- reads: a failed length check throws and leaves the cursor where it was

    method ReadUint(k: nat) returns (r: Option<nat>)
      requires k > 0
      modifies this`readCursor
      ensures r.Some? <==> GetUint(k, old(Rest())).Some?
      ensures r.Some? ==> GetUint(k, old(Rest())) == Some(Got(r.value, Rest()))
      ensures readCursor == old(readCursor) + if r.Some? then k else 0
    {
      if |bytes| < readCursor + k { return None; }
      assert bytes[readCursor..][..k] == bytes[readCursor..readCursor + k];
      assert bytes[readCursor..][k..] == bytes[readCursor + k..];
      r := Some(FromBigEndian(bytes[readCursor..readCursor + k]));
      readCursor := readCursor + k;
    }

    method ReadInt(k: nat) returns (r: Option<int>)
      requires k > 0
      modifies this`readCursor
      ensures r.Some? <==> GetInt(k, old(Rest())).Some?
      ensures r.Some? ==> GetInt(k, old(Rest())) == Some(Got(r.value, Rest()))
      ensures readCursor == old(readCursor) + if r.Some? then k else 0
    {
      var u := ReadUint(k);
      if u.None? { return None; }
      r := Some(ToSigned(k, u.value));
    }

    /** A zero count succeeds even past the end. */
    method ReadBytes(count: nat) returns (r: Option<seq<byte>>)
      modifies this`readCursor
      ensures r.Some? <==> GetBytes(count, old(Rest())).Some?
      ensures r.Some? ==> GetBytes(count, old(Rest())) == Some(Got(r.value, Rest()))
      ensures r.None? ==> readCursor == old(readCursor)
    {
      if count == 0 {
        assert Rest()[..0] == [] && Rest()[0..] == Rest();
        return Some([]);
      }
      if |bytes| < readCursor + count { return None; }
      assert bytes[readCursor..][..count] == bytes[readCursor..readCursor + count];
      assert bytes[readCursor..][count..] == bytes[readCursor + count..];
      r := Some(bytes[readCursor..readCursor + count]);
      readCursor := readCursor + count;
    }

    /** When the announced bytes are missing, the length itself has already been taken. */
    method ReadString() returns (r: Option<seq<byte>>)
      modifies this`readCursor
      ensures r.Some? <==> GetString(old(Rest())).Some?
      ensures r.Some? ==> GetString(old(Rest())) == Some(Got(r.value, Rest()))
      ensures r.None? ==> readCursor == old(readCursor) || readCursor == old(readCursor) + 2
    {
      var length := ReadInt(2);
      if length.None? { return None; }
      if length.value <= 0 { return Some([]); }
      r := ReadBytes(length.value);
    }

    method ReadBlob() returns (r: Option<seq<byte>>)
      modifies this`readCursor
      ensures r.Some? <==> GetBlob(old(Rest())).Some?
      ensures r.Some? ==> GetBlob(old(Rest())) == Some(Got(r.value, Rest()))
      ensures r.None? ==> readCursor == old(readCursor) || readCursor == old(readCursor) + 4
    {
      var length := ReadInt(4);
      if length.None? { return None; }
      if length.value <= 0 { return Some([]); }
      r := ReadBytes(length.value);
    }

    /** One element, read by `get`, which advances within the buffer. */
    method ReadElement<T>(get: Get<T>) returns (r: Option<T>)
      requires Advances(get)
      modifies this`readCursor
      ensures r.Some? <==> get(old(Rest())).Some?
      ensures r.Some? ==> get(old(Rest())) == Some(Got(r.value, Rest()))
    {
      var next := get(Rest());
      if next.None? { return None; }
      assert AdvancesOn(get, Rest());
      ghost var rest := Rest();
      readCursor := readCursor + (|Rest()| - |next.value.rest|);
      assert Rest() == next.value.rest by { assert rest[|rest| - |next.value.rest|..] == Rest(); }
      r := Some(next.value.value);
    }

    /** read_array's loop. */
    method ReadElements<T>(get: Get<T>, n: nat) returns (r: Option<seq<T>>)
      requires Advances(get)
      modifies this`readCursor
      ensures r.Some? <==> GetAll(get, n, old(Rest())).Some?
      ensures r.Some? ==> GetAll(get, n, old(Rest())) == Some(Got(r.value, Rest()))
    {
      ghost var all := GetAll(get, n, Rest());
      var elements: seq<T> := [];
      AfterNothing(all);
      var i := 0;
      while i < n
        invariant i <= n
        invariant After(elements, GetAll(get, n - i, Rest())) == all
      {
        ghost var rest := Rest();
        var next := ReadElement(get);
        if next.None? { return None; }
        GetAllStep(get, n - i, rest, next.value, Rest());
        AfterStep(elements, next.value, GetAll(get, n - i - 1, Rest()));
        elements := elements + [next.value];
        i := i + 1;
      }
      assert elements + [] == elements;
      r := Some(elements);
    }

    method ReadArray<T>(get: Get<T>) returns (r: Option<seq<T>>)
      requires Advances(get)
      modifies this`readCursor
      ensures r.Some? <==> GetArray(get, old(Rest())).Some?
      ensures r.Some? ==> GetArray(get, old(Rest())) == Some(Got(r.value, Rest()))
    {
      var length := ReadInt(4);
      if length.None? { return None; }
      if length.value <= 0 { return Some([]); }
      r := ReadElements(get, length.value);
    }

    // ---- writes: the vector is cut or grown to end right after what is written

    method WriteBytes(s: seq<byte>) returns (ok: bool)
      modifies this
      ensures ok <==> s == [] || old(writeCursor) + |s| <= MAX_SIZE
      ensures ok && s != [] ==> bytes == old(Written()) + s && writeCursor == old(writeCursor) + |s|
      ensures !ok || s == [] ==> bytes == old(bytes) && writeCursor == old(writeCursor)
      ensures ok ==> Written() == old(Written()) + s
      ensures readCursor == old(readCursor)
    {
      if s == [] {
        assert Written() + [] == Written();
        return true;
      }
      if writeCursor + |s| > MAX_SIZE { return false; }
      bytes := Resized(bytes, writeCursor) + s;
      writeCursor := writeCursor + |s|;
      ok := true;
    }

    method WriteUint(k: nat, v: nat) returns (ok: bool)
      requires k > 0
      modifies this
      ensures ok <==> old(writeCursor) + k <= MAX_SIZE
      ensures ok ==> Written() == old(Written()) + BigEndian(k, v) && writeCursor == old(writeCursor) + k
      ensures readCursor == old(readCursor)
    {
      ok := WriteBytes(BigEndian(k, v));
    }

    method WriteString(v: seq<byte>) returns (ok: bool)
      modifies this
      ensures ok <==> |v| <= MAX_STRING && old(writeCursor) + 2 + |v| <= MAX_SIZE
      ensures ok ==> Written() == old(Written()) + PutString(v, []) && writeCursor == old(writeCursor) + 2 + |v|
      ensures readCursor == old(readCursor)
    {
      if |v| > MAX_STRING { return false; }
      ghost var front := Written();
      ok := WriteUint(2, |v|);
      if !ok { return; }
      ok := WriteBytes(v);
      assert v + [] == v;
      assert (front + BigEndian(2, |v|)) + v == front + (BigEndian(2, |v|) + v);
    }

    method WriteBlob(v: seq<byte>) returns (ok: bool)
      modifies this
      ensures ok <==> |v| <= MAX_BLOB && old(writeCursor) + 4 + |v| <= MAX_SIZE
      ensures ok ==> Written() == old(Written()) + PutBlob(v, []) && writeCursor == old(writeCursor) + 4 + |v|
      ensures readCursor == old(readCursor)
    {
      if |v| > MAX_BLOB { return false; }
      ghost var front := Written();
      ok := WriteUint(4, |v|);
      if !ok { return; }
      ok := WriteBytes(v);
      assert v + [] == v;
      assert (front + BigEndian(4, |v|)) + v == front + (BigEndian(4, |v|) + v);
    }

    /** write_array's loop; `put` is the element writer. */
    /** write_array's loop; `accepts` are the elements whose own writer does not throw. */
    method WriteElements<T(!new)>(put: Put<T>, accepts: T -> bool, xs: seq<T>) returns (ok: bool)
      requires Appends(put) && writeCursor <= MAX_SIZE
      modifies this
      ensures ok <==> (forall i :: 0 <= i < |xs| ==> accepts(xs[i])) && old(writeCursor) + |PutAll(put, xs, [])| <= MAX_SIZE
      ensures ok ==> Written() == old(Written()) + PutAll(put, xs, [])
      ensures readCursor == old(readCursor)
    {
      ghost var front, all := Written(), PutAll(put, xs, []);
      var i := 0;
      ok := true;
      assert xs[0..] == xs;
      while i < |xs|
        invariant 0 <= i <= |xs| && ok
        invariant forall j :: 0 <= j < i ==> accepts(xs[j])
        invariant readCursor == old(readCursor) && writeCursor <= MAX_SIZE
        invariant writeCursor + |PutAll(put, xs[i..], [])| == old(writeCursor) + |all|
        invariant Written() + PutAll(put, xs[i..], []) == front + all
      {
        if !accepts(xs[i]) { return false; }
        ghost var before, rest := Written(), PutAll(put, xs[i + 1..], []);
        PutAllStep(put, xs, i);
        ok := WriteBytes(put(xs[i], []));
        if !ok { return; }
        assert (before + put(xs[i], [])) + rest == before + (put(xs[i], []) + rest);
        i := i + 1;
      }
      assert xs[i..] == [];
      assert Written() + [] == Written();
    }

    method WriteArray<T(!new)>(put: Put<T>, accepts: T -> bool, xs: seq<T>) returns (ok: bool)
      requires Appends(put)
      modifies this
      ensures ok <==> |xs| <= MAX_BLOB && (forall i :: 0 <= i < |xs| ==> accepts(xs[i]))
                      && old(writeCursor) + |PutArray(put, xs, [])| <= MAX_SIZE
      ensures ok ==> Written() == old(Written()) + PutArray(put, xs, [])
      ensures readCursor == old(readCursor)
    {
      if |xs| > MAX_BLOB { return false; }
      ghost var front, head, all := Written(), BigEndian(4, |xs|), PutAll(put, xs, []);
      ok := WriteUint(4, |xs|);
      if !ok { return; }
      ok := WriteElements(put, accepts, xs);
      assert (front + head) + all == front + (head + all);
    }
  }

  /** A writer's bytes do not depend on those that follow. */
  ghost predicate AppendsOn<T>(put: Put<T>, x: T, tail: seq<byte>) {
    put(x, tail) == put(x, []) + tail
  }

  ghost predicate Appends<T(!new)>(put: Put<T>) {
    forall x: T, tail: seq<byte> :: AppendsOn(put, x, tail)
  }

  lemma PutAllStep<T(!new)>(put: Put<T>, xs: seq<T>, i: nat)
    requires Appends(put) && i < |xs|
    ensures PutAll(put, xs[i..], []) == put(xs[i], []) + PutAll(put, xs[i + 1..], [])
  {
    assert xs[i..][1..] == xs[i + 1..];
    assert AppendsOn(put, xs[i], PutAll(put, xs[i + 1..], []));
  }

  /** What a reader leaves is the end of what it was given. */
  ghost predicate AdvancesOn<T>(get: Get<T>, s: seq<byte>) {
    get(s).Some? ==> |get(s).value.rest| <= |s| && get(s).value.rest == s[|s| - |get(s).value.rest|..]
  }

  ghost predicate Advances<T>(get: Get<T>) {
    forall s: seq<byte> :: AdvancesOn(get, s)
  }

  lemma GetAllStep<T>(get: Get<T>, n: nat, s: seq<byte>, x: T, rest: seq<byte>)
    requires n > 0 && get(s) == Some(Got(x, rest))
    ensures GetAll(get, n, s) == After([x], GetAll(get, n - 1, rest))
  {
  }

  ghost function After<T>(done: seq<T>, r: Option<Got<seq<T>>>): Option<Got<seq<T>>> {
    match r
    case None => None
    case Some(g) => Some(Got(done + g.value, g.rest))
  }

  lemma AfterStep<T>(done: seq<T>, x: T, r: Option<Got<seq<T>>>)
    ensures After(done, After([x], r)) == After(done + [x], r)
  {
    if r.Some? { assert done + ([x] + r.value.value) == (done + [x]) + r.value.value; }
  }

  lemma AfterNothing<T>(r: Option<Got<seq<T>>>)
    ensures After([], r) == r
  {
    if r.Some? { assert [] + r.value.value == r.value.value; }
  }
}
