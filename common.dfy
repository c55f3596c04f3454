/** Small datatypes and sequence helpers shared by every module of the model. */
module Common {

  /** Python's `X | None`: a value that may be missing. */
  datatype Option<T> = None | Some(value: T)

  /** The strings of `parts` joined end to end, in order (Python's `"".join(parts)`). */
  function Concat(parts: seq<string>): string
  {
    if parts == [] then "" else Concat(parts[..|parts| - 1]) + parts[|parts| - 1]
  }

  lemma ConcatAppend(parts: seq<string>, p: string)
    ensures Concat(parts + [p]) == Concat(parts) + p
  {
    assert (parts + [p])[..|parts|] == parts;
  }
}
