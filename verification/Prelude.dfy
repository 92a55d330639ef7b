/** Small shared vocabulary: optional values, bytes, concatenation of chunks. */
module Prelude {

  datatype Option<+T> = None | Some(value: T)

  newtype uint8 = x: int | 0 <= x < 0x100

  type Bytes = seq<uint8>

  /** The bytes of all chunks, in order. */
  function Flatten(chunks: seq<Bytes>): Bytes {
    if chunks == [] then [] else chunks[0] + Flatten(chunks[1..])
  }

  lemma {:induction false} FlattenAppend(chunks: seq<Bytes>, last: Bytes)
    ensures Flatten(chunks + [last]) == Flatten(chunks) + last
  {
    if chunks == [] {
      assert [] + [last] == [last];
      assert Flatten([last]) == last + Flatten([]);
    } else {
      assert (chunks + [last])[1..] == chunks[1..] + [last];
      FlattenAppend(chunks[1..], last);
      assert Flatten(chunks + [last]) == chunks[0] + (Flatten(chunks[1..]) + last);
    }
  }

  /** What a NUL-terminated reader sees of a buffer: everything before the first zero byte. */
  function CString(buf: Bytes): (r: Bytes)
    ensures |r| <= |buf| && r == buf[..|r|]
    ensures forall k | 0 <= k < |r| :: r[k] != 0
    ensures |r| < |buf| ==> buf[|r|] == 0
  {
    if buf == [] || buf[0] == 0 then [] else [buf[0]] + CString(buf[1..])
  }

  /** The contract of `CString` determines it. */
  lemma {:induction false} CStringUnique(buf: Bytes, r: Bytes)
    requires |r| <= |buf| && r == buf[..|r|]
    requires forall k | 0 <= k < |r| :: r[k] != 0
    requires |r| < |buf| ==> buf[|r|] == 0
    ensures CString(buf) == r
  {
    if r == [] {
    } else {
      assert r[0] == buf[0] != 0;
      CStringUnique(buf[1..], r[1..]);
      assert r == [r[0]] + r[1..];
    }
  }

  /** The naturals below `n`. */
  function Range(n: nat): (r: set<nat>)
    ensures forall c: nat :: c in r <==> c < n
    ensures |r| == n
  {
    if n == 0 then {} else Range(n - 1) + {n - 1}
  }

  lemma SubsetSize<T>(a: set<T>, b: set<T>)
    requires a <= b
    ensures |a| <= |b|
  {
    assert b == a + (b - a);
  }

  /** A one-to-one map has as many values as keys. */
  lemma {:induction false} InjectiveSize(m: map<nat, nat>)
    requires forall i, j | i in m && j in m && m[i] == m[j] :: i == j
    ensures |m.Values| == |m|
    decreases |m|
  {
    if m == map[] {
      assert m.Values == {};
    } else {
      var i :| i in m;
      var m' := m - {i};
      assert m.Keys == m'.Keys + {i};
      InjectiveSize(m');
      assert m.Values == m'.Values + {m[i]};
    }
  }
}
