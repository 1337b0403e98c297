/** Values shared by every part of the model: embedding vectors, the
    outcome type used for the source's exceptions, and `np.concatenate`
    with `axis=None`, which joins a list of arrays into one flat array. */
module Common {

  /** A flattened float32 array. Only lengths and order matter to the model. */
  type Vector = seq<real>

  datatype Option<+T> = None | Some(value: T)

  /** A Python call that either returns a value or raises. */
  datatype Result<+T, +E> = Ok(value: T) | Err(error: E)

  /** The concatenation of `parts` in order (`np.concatenate(parts, axis=None)`
      once each part is flat). Defined on prefixes so that a loop that appends
      one part at a time follows it step by step. */
  function Flatten<T>(parts: seq<seq<T>>): seq<T>
  {
    if parts == [] then [] else Flatten(parts[..|parts| - 1]) + parts[|parts| - 1]
  }

  /** The sum of the lengths of `parts`. */
  function TotalLength<T>(parts: seq<seq<T>>): nat
  {
    if parts == [] then 0 else TotalLength(parts[..|parts| - 1]) + |parts[|parts| - 1]|
  }

  /** Every row of `m` has `width` elements. */
  predicate Rectangular<T>(m: seq<seq<T>>, width: nat)
  {
    forall i :: 0 <= i < |m| ==> |m[i]| == width
  }

  lemma {:induction false} FlattenLength<T>(parts: seq<seq<T>>)
    ensures |Flatten(parts)| == TotalLength(parts)
  {
    if parts != [] {
      FlattenLength(parts[..|parts| - 1]);
    }
  }

  /** Concatenating two lists of parts concatenates their flattenings. */
  lemma {:induction false} FlattenAppend<T>(a: seq<seq<T>>, b: seq<seq<T>>)
    ensures Flatten(a + b) == Flatten(a) + Flatten(b)
  {
    if b == [] {
      assert a + b == a;
    } else {
      var b' := b[..|b| - 1];
      assert (a + b)[..|a + b| - 1] == a + b';
      FlattenAppend(a, b');
    }
  }

  /** Appending one more part to a prefix extends the flattening by that part. */
  lemma FlattenPrefixStep<T>(parts: seq<seq<T>>, i: nat)
    requires i < |parts|
    ensures Flatten(parts[..i + 1]) == Flatten(parts[..i]) + parts[i]
  {
    assert parts[..i + 1][..i] == parts[..i];
  }

  /** Row-major order: in the flattening of a matrix of width `width`,
      element `j` of row `i` sits at position `i * width + j`. */
  lemma {:induction false} FlattenRowMajor<T>(m: seq<seq<T>>, width: nat, i: nat, j: nat)
    requires Rectangular(m, width)
    requires i < |m| && j < width
    ensures |Flatten(m)| == |m| * width
    ensures i * width + j < |Flatten(m)| && Flatten(m)[i * width + j] == m[i][j]
  {
    var n := |m| - 1;
    var prefix := m[..n];
    assert Rectangular(prefix, width);
    FlattenRectLength(prefix, width);
    assert |Flatten(m)| == n * width + width;
    if i < n {
      FlattenRowMajor(prefix, width, i, j);
      assert i * width + j < n * width;
    } else {
      assert i * width + j == n * width + j;
    }
  }

  lemma {:induction false} FlattenRectLength<T>(m: seq<seq<T>>, width: nat)
    requires Rectangular(m, width)
    ensures |Flatten(m)| == |m| * width
  {
    if m != [] {
      var n := |m| - 1;
      var prefix := m[..n];
      assert Rectangular(prefix, width);
      FlattenRectLength(prefix, width);
      assert |Flatten(m)| == n * width + width;
      assert |m| * width == n * width + width;
    }
  }

  /** An element occurs in a flattening exactly when it occurs in one of the parts. */
  lemma {:induction false} InFlatten<T>(parts: seq<seq<T>>, x: T)
    ensures x in Flatten(parts) <==> exists i :: 0 <= i < |parts| && x in parts[i]
  {
    if parts != [] {
      var prefix := parts[..|parts| - 1];
      InFlatten(prefix, x);
      if x in Flatten(parts) {
        if x !in parts[|parts| - 1] {
          var i :| 0 <= i < |prefix| && x in prefix[i];
          assert parts[i] == prefix[i];
        }
      } else {
        forall i | 0 <= i < |parts| ensures x !in parts[i] {
          if i < |prefix| {
            assert parts[i] == prefix[i];
          }
        }
      }
    }
  }
}
