/** Small shared vocabulary: optional values, results, and sequences. */
module Prelude {
  const USIZE_MAX: nat := 0xFFFF_FFFF_FFFF_FFFF

  datatype Option<+T> = None | Some(value: T)

  datatype Result<+T, +E> = Ok(value: T) | Err(error: E)

  /** Concatenation of a sequence of sequences, in order. */
  function Flatten<T>(ss: seq<seq<T>>): seq<T> {
    if ss == [] then [] else Flatten(ss[..|ss| - 1]) + ss[|ss| - 1]
  }

  predicate Distinct<T(==)>(xs: seq<T>) { forall i, j :: 0 <= i < j < |xs| ==> xs[i] != xs[j] }

  // Regrouping of concatenations, kept apart so that no other proof has to search for it.

  lemma Assoc<T>(a: seq<T>, b: seq<T>, c: seq<T>)
    ensures (a + b) + c == a + (b + c)
  {
  }

  lemma DropEmpties<T>(a: seq<T>, b: seq<T>)
    ensures a + [] + [] + b == a + b
  {
  }

  lemma SwapEmpty<T>(a: seq<T>, b: seq<T>)
    ensures a + [] + b == a + b + []
  {
  }
}
