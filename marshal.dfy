/** Marshalling of a record collection into one uniform buffer: the records' vec4 words
    laid end to end, in collection order, with no padding between records (a record of
    vec4 fields has no std140 padding of its own, see section 7.6.2.2 of the OpenGL 4.6
    core profile specification). Record i occupies words n*i .. n*i + n - 1, which is the
    only way the kernel can address it. */
module Marshal {
  import opened Glm

  /** Bytes in one vec4 (four 32-bit floats), the std140 base alignment of a vec4. */
  const VEC4_BYTES: nat := 16

  function Pack<T>(xs: seq<T>, enc: T -> seq<Vec4>): (r: seq<Vec4>)
  {
    if xs == [] then [] else enc(xs[0]) + Pack(xs[1..], enc)
  }

  /** Splits a buffer back into records of n words each. */
  function Unpack<T>(ws: seq<Vec4>, dec: seq<Vec4> -> T, n: nat): seq<T>
    requires n > 0
    decreases |ws|
  {
    if |ws| < n then [] else [dec(ws[..n])] + Unpack(ws[n..], dec, n)
  }

  lemma {:induction false} PackLength<T>(xs: seq<T>, enc: T -> seq<Vec4>, n: nat)
    requires forall x :: |enc(x)| == n
    ensures |Pack(xs, enc)| == n * |xs|
  {
    if xs != [] {
      PackLength(xs[1..], enc, n);
    }
  }

  /** Word j of record i sits at index n*i + j. */
  lemma {:induction false} PackIndex<T>(xs: seq<T>, enc: T -> seq<Vec4>, n: nat, i: nat, j: nat)
    requires forall x :: |enc(x)| == n
    requires i < |xs| && j < n
    ensures n * i + j < |Pack(xs, enc)|
    ensures Pack(xs, enc)[n * i + j] == enc(xs[i])[j]
  {
    PackLength(xs, enc, n);
    if i > 0 {
      PackIndex(xs[1..], enc, n, i - 1, j);
      assert n * i + j == n + (n * (i - 1) + j);
    }
  }

  /** The record at index i is the slice n*i .. n*(i+1) of the buffer. */
  lemma PackSlice<T>(xs: seq<T>, enc: T -> seq<Vec4>, n: nat, i: nat)
    requires forall x :: |enc(x)| == n
    requires i < |xs|
    ensures n * i + n <= |Pack(xs, enc)|
    ensures Pack(xs, enc)[n * i .. n * i + n] == enc(xs[i])
  {
    PackLength(xs, enc, n);
    assert n * i + n <= n * |xs| by {
      assert n * (i + 1) <= n * |xs| by {
        MulMonotone(n, i + 1, |xs|);
      }
    }
    forall j | 0 <= j < n
      ensures Pack(xs, enc)[n * i .. n * i + n][j] == enc(xs[i])[j]
    {
      PackIndex(xs, enc, n, i, j);
    }
  }

  lemma MulMonotone(n: nat, a: nat, b: nat)
    requires a <= b
    ensures n * a <= n * b
  {
  }

  /** Unpacking a packed buffer gives back the collection. */
  lemma {:induction false} UnpackPack<T>(xs: seq<T>, enc: T -> seq<Vec4>, dec: seq<Vec4> -> T, n: nat)
    requires n > 0
    requires forall x :: |enc(x)| == n
    requires forall x :: dec(enc(x)) == x
    ensures Unpack(Pack(xs, enc), dec, n) == xs
  {
    if xs != [] {
      var ws := Pack(xs, enc);
      assert ws == enc(xs[0]) + Pack(xs[1..], enc);
      assert ws[..n] == enc(xs[0]);
      assert ws[n..] == Pack(xs[1..], enc);
      UnpackPack(xs[1..], enc, dec, n);
      assert xs == [xs[0]] + xs[1..];
    }
  }

  lemma PackNonEmpty<T>(xs: seq<T>, enc: T -> seq<Vec4>, n: nat)
    requires forall x :: |enc(x)| == n
    requires n > 0 && xs != []
    ensures Pack(xs, enc) != []
  {
    PackLength(xs, enc, n);
  }
}
