/**
 * The error vocabulary the registration core shares: the field-to-messages map
 * built with `add_error` / `merge_errors`, an eyre-style report, and the
 * application error a request handler returns.
 *
 * The helpers of `crate::erro` are not part of this model. `AddError` follows
 * what every call site relies on; `MergeErrors` is an assumed definition of
 * `merge_errors` (key union, left operand's messages first) and is used only
 * by lemmas that say they rest on it.
 */
module Errors {

  /** Field name -> messages recorded against it, in the order they were added. */
  type ErrorMap = map<string, seq<string>>

  /** An error report: the outermost context first, then the causes it wraps. */
  datatype Report = Report(chain: seq<string>)

  /** What a handler fails with: an internal error carrying a report, or 422 with a field map. */
  datatype AppError = Internal(report: Report) | UnprocessableEntity(errors: ErrorMap)

  /** Messages recorded for `field`, the empty list when it has none. */
  function Messages(errors: ErrorMap, field: string): seq<string>
  {
    if field in errors then errors[field] else []
  }

  /** `add_error`: append `message` to `field`'s list, creating the list when it is missing. */
  function AddError(errors: ErrorMap, field: string, message: string): (r: ErrorMap)
    ensures forall k :: k in r <==> k in errors || k == field
    ensures r[field] == Messages(errors, field) + [message]
    ensures forall k :: k in errors && k != field ==> r[k] == errors[k]
  {
    errors[field := Messages(errors, field) + [message]]
  }

  /** An assumed definition of `merge_errors`: every key of either map, left operand's messages first. */
  function MergeErrors(a: ErrorMap, b: ErrorMap): (r: ErrorMap)
    ensures forall k :: k in r <==> k in a || k in b
    ensures forall k :: k in r ==> r[k] == Messages(a, k) + Messages(b, k)
  {
    map k | k in a.Keys + b.Keys :: Messages(a, k) + Messages(b, k)
  }

  /** The empty map is a left and a right identity of `MergeErrors`. */
  lemma MergeIdentity(a: ErrorMap)
    ensures MergeErrors(a, map[]) == a
    ensures MergeErrors(map[], a) == a
  {
    var l, r := MergeErrors(a, map[]), MergeErrors(map[], a);
    forall k | k in a
      ensures l[k] == a[k] && r[k] == a[k]
    {
      assert Messages(map[], k) == [];
      assert Messages(a, k) == a[k];
    }
  }

  /** Merging is associative. */
  lemma MergeAssociative(a: ErrorMap, b: ErrorMap, c: ErrorMap)
    ensures MergeErrors(MergeErrors(a, b), c) == MergeErrors(a, MergeErrors(b, c))
  {
    var l, r := MergeErrors(MergeErrors(a, b), c), MergeErrors(a, MergeErrors(b, c));
    forall k | k in l
      ensures l[k] == r[k]
    {
      MergeAssociativeAt(a, b, c, k);
    }
  }

  lemma MergeAssociativeAt(a: ErrorMap, b: ErrorMap, c: ErrorMap, k: string)
    ensures Messages(MergeErrors(MergeErrors(a, b), c), k) == Messages(MergeErrors(a, MergeErrors(b, c)), k)
  {
    var ab, bc := MergeErrors(a, b), MergeErrors(b, c);
    var x, y, z := Messages(a, k), Messages(b, k), Messages(c, k);
    MergedMessages(a, b, k);
    MergedMessages(ab, c, k);
    MergedMessages(b, c, k);
    MergedMessages(a, bc, k);
    assert (x + y) + z == x + (y + z);
  }

  /** The messages a merge records for any key, present or not. */
  lemma MergedMessages(a: ErrorMap, b: ErrorMap, k: string)
    ensures Messages(MergeErrors(a, b), k) == Messages(a, k) + Messages(b, k)
  {
  }

  /** On maps with no key in common, the order of the operands does not matter. */
  lemma MergeCommutesOnDisjointKeys(a: ErrorMap, b: ErrorMap)
    requires a.Keys !! b.Keys
    ensures MergeErrors(a, b) == MergeErrors(b, a)
  {
    var l, r := MergeErrors(a, b), MergeErrors(b, a);
    forall k | k in l
      ensures l[k] == r[k]
    {
      if k in a {
        assert Messages(b, k) == [];
      } else {
        assert Messages(a, k) == [];
      }
    }
  }

  /** Nothing is lost: each list of the merge starts with `a`'s messages and ends with `b`'s. */
  lemma MergeKeepsAllMessages(a: ErrorMap, b: ErrorMap, k: string)
    requires k in a || k in b
    ensures k in MergeErrors(a, b)
    ensures MergeErrors(a, b)[k][..|Messages(a, k)|] == Messages(a, k)
    ensures MergeErrors(a, b)[k][|Messages(a, k)|..] == Messages(b, k)
  {
  }

  /** Adding one error is merging with a one-entry map. */
  lemma AddErrorIsMergeWithSingleton(errors: ErrorMap, field: string, message: string)
    ensures AddError(errors, field, message) == MergeErrors(errors, map[field := [message]])
  {
    var l, r := AddError(errors, field, message), MergeErrors(errors, map[field := [message]]);
    forall k | k in l
      ensures l[k] == r[k]
    {
      if k != field {
        assert Messages(map[field := [message]], k) == [];
      }
    }
  }
}
