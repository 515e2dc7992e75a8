/**
 * Spring's Errors sink, as the validators use it: a list of rejected
 * (field path, message) pairs and a stack of nested paths that prefixes
 * every field name rejected while it is pushed.
 */
module Validation {
  import opened Text

  datatype FieldError = FieldError(field: string, message: string)

  /** The nested path after pushNestedPath(sub): the old path plus sub, ending in '.' unless empty. */
  function PushedPath(current: string, sub: string): (r: string)
    ensures r == "" || r[|r| - 1] == '.'
    ensures current + sub <= r
  {
    var p := current + sub;
    if p == "" || p[|p| - 1] == '.' then p else p + "."
  }

  /** The field path recorded by rejectValue(field): the nested path plus the field; for an
    * empty field, the nested path itself without its trailing '.'. */
  function FieldPath(nestedPath: string, field: string): string {
    if field != "" then nestedPath + field
    else if |nestedPath| > 0 && nestedPath[|nestedPath| - 1] == '.' then nestedPath[..|nestedPath| - 1]
    else nestedPath
  }

  /** The field name of the i-th element of a list property, as `name[i]`. */
  function Indexed(name: string, i: nat): string {
    name + "[" + IntToDecimal(i) + "]"
  }

  /** The errors of a rejectValue(field, message) guarded by cond: one rejection or none. */
  function RejectIf(cond: bool, p: string, field: string, message: string): (r: seq<FieldError>)
    ensures r == [] <==> !cond
    ensures cond ==> r == [Rejection(p, field, message)]
  {
    if cond then [Rejection(p, field, message)] else []
  }

  /** The error one rejectValue(field, message) records under a nested path. */
  function Rejection(nestedPath: string, field: string, message: string): FieldError {
    FieldError(FieldPath(nestedPath, field), message)
  }

  /** The error that push(sub); rejectValue(field, message); pop() records. */
  function SubpathRejection(nestedPath: string, sub: string, field: string, message: string): FieldError {
    Rejection(PushedPath(nestedPath, sub), field, message)
  }

  class Errors {
    var nestedPath: string
    var stack: seq<string>
    var errors: seq<FieldError>

    constructor ()
      ensures nestedPath == "" && stack == [] && errors == []
    {
      nestedPath, stack, errors := "", [], [];
    }

    method PushNestedPath(sub: string)
      modifies this
      ensures stack == old(stack) + [old(nestedPath)]
      ensures nestedPath == PushedPath(old(nestedPath), sub)
      ensures errors == old(errors)
    {
      stack := stack + [nestedPath];
      nestedPath := PushedPath(nestedPath, sub);
    }

    /** Restores the path saved by the matching push; Spring throws when nothing was pushed. */
    method PopNestedPath()
      requires stack != []
      modifies this
      ensures nestedPath == old(stack)[|old(stack)| - 1]
      ensures stack == old(stack)[..|old(stack)| - 1]
      ensures errors == old(errors)
    {
      nestedPath := stack[|stack| - 1];
      stack := stack[..|stack| - 1];
    }

    method RejectValue(field: string, message: string)
      modifies this
      ensures errors == old(errors) + [Rejection(nestedPath, field, message)]
      ensures nestedPath == old(nestedPath) && stack == old(stack)
    {
      errors := errors + [Rejection(nestedPath, field, message)];
    }

    /** The rejections a nested validator records under the current path. */
    method RejectAll(rejections: seq<FieldError>)
      modifies this
      ensures errors == old(errors) + rejections
      ensures nestedPath == old(nestedPath) && stack == old(stack)
    {
      errors := errors + rejections;
    }

    /** rejectValue(field, message) when cond holds. */
    method RejectWhen(cond: bool, field: string, message: string)
      modifies this
      ensures errors == old(errors) + RejectIf(cond, nestedPath, field, message)
      ensures nestedPath == old(nestedPath) && stack == old(stack)
    {
      if cond {
        RejectValue(field, message);
      }
    }

    /** CriteriaUtils.pushSubpathError and the push/reject/pop blocks of the validators. */
    method RejectUnder(sub: string, field: string, message: string)
      modifies this
      ensures errors == old(errors) + [SubpathRejection(old(nestedPath), sub, field, message)]
      ensures nestedPath == old(nestedPath) && stack == old(stack)
    {
      PushNestedPath(sub);
      RejectValue(field, message);
      PopNestedPath();
    }
  }

  lemma AppendAssoc<T>(a: seq<T>, b: seq<T>, c: seq<T>)
    ensures (a + b) + c == a + (b + c)
  {
  }

  lemma AppendEmpty<T>(a: seq<T>, b: seq<T>)
    ensures a + b == [] <==> a == [] && b == []
  {
    assert |a + b| == |a| + |b|;
  }

  lemma InitLastMembers<T>(xs: seq<T>)
    requires xs != []
    ensures forall x :: x in xs <==> x in xs[..|xs| - 1] || x == xs[|xs| - 1]
  {
    assert xs == xs[..|xs| - 1] + [xs[|xs| - 1]];
  }
}
