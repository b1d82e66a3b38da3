/** Small shared types: an optional value, WordPress's error object and a
    result that is either a value or such an error. */
module Common {

  datatype Option<+T> = None | Some(value: T)

  /** A WP_Error: a machine-readable code and a human-readable message. */
  datatype WpError = WpError(code: string, message: string)

  /** A value or a WP_Error, as the source's `T|WP_Error` returns. */
  datatype Result<+T> = Ok(value: T) | Err(error: WpError)

  /** array_unique on a list: each element once, in the order of its first
      occurrence. */
  function Distinct<T(==)>(xs: seq<T>): seq<T>
    decreases |xs|
  {
    if xs == [] then []
    else
      var d := Distinct(xs[..|xs| - 1]);
      if xs[|xs| - 1] in d then d else d + [xs[|xs| - 1]]
  }

  /** Distinct keeps exactly the elements of its input, each once. */
  lemma {:induction false} DistinctSpec<T>(xs: seq<T>)
    ensures forall x :: x in Distinct(xs) <==> x in xs
    ensures forall i, j :: 0 <= i < j < |Distinct(xs)| ==> Distinct(xs)[i] != Distinct(xs)[j]
    decreases |xs|
  {
    if xs != [] {
      var init := xs[..|xs| - 1];
      DistinctSpec(init);
      assert xs == init + [xs[|xs| - 1]];
    }
  }

  /** Membership in Distinct, one element at a time. */
  lemma DistinctHas<T>(xs: seq<T>, x: T)
    ensures x in Distinct(xs) <==> x in xs
  {
    DistinctSpec(xs);
  }

  /** Distinct of a sequence with one more element. */
  lemma DistinctSnoc<T>(xs: seq<T>, x: T)
    ensures Distinct(xs + [x]) == if x in xs then Distinct(xs) else Distinct(xs) + [x]
  {
    assert (xs + [x])[..|xs|] == xs;
    DistinctSpec(xs);
  }
}
