/**
 * The validation errors a document schema reports when a document is created or
 * updated with validators on. Every failing path is reported, in schema order.
 */
module Schema {
  import opened Wrappers

  datatype FieldError =
    | Required(path: string, message: string)
    | BelowMin(path: string, value: int, min: int)
    | AboveMax(path: string, value: int, max: int)

  /** The errors of an embedded document, reported under the embedding path. */
  function Nested(prefix: string, errors: seq<FieldError>): (r: seq<FieldError>)
    ensures |r| == |errors|
    ensures forall i :: 0 <= i < |errors| ==> r[i].path == prefix + "." + errors[i].path
  {
    seq(|errors|, i requires 0 <= i < |errors| =>
      match errors[i]
      case Required(p, m) => Required(prefix + "." + p, m)
      case BelowMin(p, v, lo) => BelowMin(prefix + "." + p, v, lo)
      case AboveMax(p, v, hi) => AboveMax(prefix + "." + p, v, hi))
  }

  /** A required string path: absent and empty both fail, as the schema's required validator does. */
  predicate Present(value: Option<string>) {
    value.Some? && value.value != ""
  }
}
