/** Shared vocabulary of the extrapolation and generation models: optional
    values, results that carry the library's errors, the dynamically typed
    values a Python caller may pass to a validating setter, and the
    case-insensitive method-name validation used by every method registry. */
module Common {

  datatype Option<+T> = None | Some(value: T)

  datatype Result<+R> = Success(value: R) | Failure(error: Error)

  /** Outcome of a setter: it either accepted the value or raised. */
  datatype Outcome = Pass | Fail(error: Error)

  /** A value as a Python caller may hand it to a setter whose parameter is not
      statically typed: `None`, a string, a real number, or any other object. */
  datatype Value = NoneValue | Str(s: string) | Number(r: real) | Object

  /** The exceptions raised by the modelled code.  `attest` raises an assertion
      error (the first three kinds); `validate_method` raises a value error. */
  datatype Error =
    | NotAString(given: Value)
    | NotANumber(given: Value)
    | MissingAttribute(attribute: string)
    | InvalidMethod(name: string, valid: seq<string>)

  /** Lower-casing of one character, restricted to ASCII letters. */
  function LowerChar(c: char): char
  {
    if 'A' <= c <= 'Z' then (c as int + 32) as char else c
  }

  /** `str.lower` over ASCII: every upper-case letter becomes its lower-case
      letter, every other character is kept. */
  function Lower(s: string): (r: string)
    ensures |r| == |s|
  {
    seq(|s|, i requires 0 <= i < |s| => LowerChar(s[i]))
  }

  /** Lower-casing twice is lower-casing once, so a name that
      `validate_method` returned validates again to itself. */
  lemma LowerIdempotent(s: string)
    ensures Lower(Lower(s)) == Lower(s)
  {
  }

  /** The valid names, each lower-cased: the keys `validate_method` looks the
      lower-cased method up in. */
  function LowerAll(names: seq<string>): (r: seq<string>)
    ensures |r| == |names|
    ensures forall i :: 0 <= i < |names| ==> r[i] == Lower(names[i])
  {
    if names == [] then [] else [Lower(names[0])] + LowerAll(names[1..])
  }

  /** `validate_method(method, valid_methods)`: succeeds exactly when `name`
      equals one of the valid names up to case, and then returns `name`
      lower-cased; otherwise it raises the invalid-method error. */
  function ValidateMethod(name: string, valid: seq<string>): (r: Result<string>)
    ensures r.Success? <==> exists i :: 0 <= i < |valid| && Lower(valid[i]) == Lower(name)
    ensures r.Success? ==> r.value == Lower(name)
    ensures r.Failure? ==> r.error == InvalidMethod(name, valid)
  {
    var names := LowerAll(valid);
    if Lower(name) in names then Success(Lower(name))
    else Failure(InvalidMethod(name, valid))
  }
}
