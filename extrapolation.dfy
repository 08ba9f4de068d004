/** The 1-D extrapolator of `colour.algebra.extrapolation`: a mutable wrapper
    around an interpolator whose validating setters guard its configuration,
    and whose evaluation fills an output buffer in three masked passes (method,
    overrides, in-range delegation) so that it answers for every real input. */
module Extrapolation {
  import opened Common

  /** An interpolator as the extrapolator sees it: its sample positions `x`,
      its sample values `y` and its evaluation, which is consulted only on
      `[x[0], x[|x| - 1]]`. */
  datatype Interpolator = Interpolator(x: seq<real>, y: seq<real>, eval: real -> real)

  /** An object offered to the `interpolator` setter, which may lack the `x`
      or the `y` attribute. */
  datatype Candidate = Candidate(x: Option<seq<real>>, y: Option<seq<real>>, eval: real -> real)

  /** The method names the setter accepts, as registered. */
  const METHODS: seq<string> := ["Linear", "Constant"]

  ghost predicate StrictlyIncreasing(s: seq<real>)
  {
    forall i :: 0 <= i < |s| - 1 ==> s[i] < s[i + 1]
  }

  /** What the interpolator protocol guarantees: at least two samples, one
      value per position, positions strictly increasing. */
  ghost predicate WellFormed(ip: Interpolator)
  {
    |ip.x| >= 2 && |ip.y| == |ip.x| && StrictlyIncreasing(ip.x)
  }

  /** The names a validated `method` can hold: lower-cased by the setter. */
  predicate IsMethodName(m: string)
  {
    m == "linear" || m == "constant"
  }

  function Last(s: seq<real>): real
    requires |s| > 0
  {
    s[|s| - 1]
  }

  /** The three classes `_evaluate` masks by. */
  predicate Below(ip: Interpolator, x: real)
    requires |ip.x| > 0
  {
    x < ip.x[0]
  }

  predicate Above(ip: Interpolator, x: real)
    requires |ip.x| > 0
  {
    x > Last(ip.x)
  }

  predicate InRange(ip: Interpolator, x: real)
    requires |ip.x| > 0
  {
    ip.x[0] <= x && x <= Last(ip.x)
  }

  /** `sdiv` under the default `sdiv_mode`.  The helper itself is not part of
      this model; that a zero denominator gives 0 is assumed of that mode. */
  function SafeDiv(a: real, b: real): (r: real)
    ensures b == 0.0 ==> r == 0.0
    ensures b != 0.0 ==> r * b == a
  {
    if b == 0.0 then 0.0 else a / b
  }

  /** Slope through the first two samples, used below the range. */
  function LeftSlope(ip: Interpolator): real
    requires |ip.x| >= 2 && |ip.y| == |ip.x|
  {
    SafeDiv(ip.y[1] - ip.y[0], ip.x[1] - ip.x[0])
  }

  /** Slope through the last two samples, used above the range. */
  function RightSlope(ip: Interpolator): real
    requires |ip.x| >= 2 && |ip.y| == |ip.x|
  {
    var n := |ip.x|;
    SafeDiv(ip.y[n - 1] - ip.y[n - 2], ip.x[n - 1] - ip.x[n - 2])
  }

  /** The linear method's value below the range: the line through the first
      two samples. */
  function LinearBelow(ip: Interpolator, x: real): real
    requires |ip.x| >= 2 && |ip.y| == |ip.x|
  {
    ip.y[0] + (x - ip.x[0]) * LeftSlope(ip)
  }

  /** The linear method's value above the range: the line through the last
      two samples. */
  function LinearAbove(ip: Interpolator, x: real): real
    requires |ip.x| >= 2 && |ip.y| == |ip.x|
  {
    var n := |ip.x|;
    ip.y[n - 1] + (x - ip.x[n - 1]) * RightSlope(ip)
  }

  /** The value the extrapolator gives at one input, by class: the
      interpolator in range; below the range the `left` override if set, else
      the method's value; above the range likewise with `right`. */
  function ExtrapolateAt(ip: Interpolator, methodName: string, left: Option<real>, right: Option<real>, x: real): real
    requires WellFormed(ip) && IsMethodName(methodName)
  {
    var n := |ip.x|;
    if InRange(ip, x) then ip.eval(x)
    else if Below(ip, x) then
      if left.Some? then left.value
      else if methodName == "linear" then LinearBelow(ip, x)
      else ip.y[0]
    else
      if right.Some? then right.value
      else if methodName == "linear" then LinearAbove(ip, x)
      else ip.y[n - 1]
  }

  /** Strictly increasing positions put the first sample below the last. */
  lemma {:induction false} IncreasingEnds(s: seq<real>)
    requires |s| >= 2 && StrictlyIncreasing(s)
    ensures s[0] < s[|s| - 1]
  {
    if |s| > 2 {
      var t := s[..|s| - 1];
      assert StrictlyIncreasing(t) by {
        forall i | 0 <= i < |t| - 1 ensures t[i] < t[i + 1] {
          assert t[i] == s[i] && t[i + 1] == s[i + 1];
        }
      }
      IncreasingEnds(t);
      assert s[|s| - 2] < s[|s| - 1];
    }
  }

  /** Below, above and in range partition the reals: every input falls in
      exactly one class, so every slot of the output buffer is written by
      exactly one of the passes that decide it. */
  lemma ClassesPartition(ip: Interpolator, x: real)
    requires WellFormed(ip)
    ensures Below(ip, x) || Above(ip, x) || InRange(ip, x)
    ensures !(Below(ip, x) && Above(ip, x))
    ensures !(Below(ip, x) && InRange(ip, x)) && !(Above(ip, x) && InRange(ip, x))
  {
    IncreasingEnds(ip.x);
  }

  /** Every input in the closed range, both ends included, gets exactly the
      interpolator's value, whatever the method and the overrides. */
  lemma InRangeIsInterpolated(ip: Interpolator, methodName: string, left: Option<real>, right: Option<real>, x: real)
    requires WellFormed(ip) && IsMethodName(methodName)
    requires ip.x[0] <= x <= Last(ip.x)
    ensures ExtrapolateAt(ip, methodName, left, right, x) == ip.eval(x)
  {
  }

  /** No discontinuity at the ends: both boundary samples are answered by the
      interpolator itself. */
  lemma BoundaryContinuity(ip: Interpolator, methodName: string, left: Option<real>, right: Option<real>)
    requires WellFormed(ip) && IsMethodName(methodName)
    ensures ExtrapolateAt(ip, methodName, left, right, ip.x[0]) == ip.eval(ip.x[0])
    ensures ExtrapolateAt(ip, methodName, left, right, Last(ip.x)) == ip.eval(Last(ip.x))
  {
    IncreasingEnds(ip.x);
  }

  /** The linear method without overrides continues the line through the
      first two samples below the range and the line through the last two
      above it.  The positions being strictly increasing, the safe division
      is an ordinary one. */
  lemma LinearLaw(ip: Interpolator, x: real)
    requires WellFormed(ip)
    ensures x < ip.x[0] ==>
      ExtrapolateAt(ip, "linear", None, None, x) == ip.y[0] + (x - ip.x[0]) * ((ip.y[1] - ip.y[0]) / (ip.x[1] - ip.x[0]))
    ensures var n := |ip.x|; x > ip.x[n - 1] ==>
      ExtrapolateAt(ip, "linear", None, None, x)
        == ip.y[n - 1] + (x - ip.x[n - 1]) * ((ip.y[n - 1] - ip.y[n - 2]) / (ip.x[n - 1] - ip.x[n - 2]))
  {
    var n := |ip.x|;
    IncreasingEnds(ip.x);
    assert ip.x[0] < ip.x[1] && ip.x[n - 2] < ip.x[n - 1];
  }

  /** The constant method without overrides repeats the first sample value
      below the range and the last one above it. */
  lemma ConstantLaw(ip: Interpolator, x: real)
    requires WellFormed(ip)
    ensures x < ip.x[0] ==> ExtrapolateAt(ip, "constant", None, None, x) == ip.y[0]
    ensures x > Last(ip.x) ==> ExtrapolateAt(ip, "constant", None, None, x) == Last(ip.y)
  {
    IncreasingEnds(ip.x);
  }

  /** A set `left` answers every input below the range and a set `right`
      every input above it, whatever the method; each override leaves the
      other side and the range alone. */
  lemma OverrideLaw(ip: Interpolator, methodName: string, left: Option<real>, right: Option<real>, x: real)
    requires WellFormed(ip) && IsMethodName(methodName)
    ensures left.Some? && x < ip.x[0] ==> ExtrapolateAt(ip, methodName, left, right, x) == left.value
    ensures right.Some? && x > Last(ip.x) ==> ExtrapolateAt(ip, methodName, left, right, x) == right.value
    ensures x >= ip.x[0] ==> ExtrapolateAt(ip, methodName, left, right, x) == ExtrapolateAt(ip, methodName, None, right, x)
    ensures x <= Last(ip.x) ==> ExtrapolateAt(ip, methodName, left, right, x) == ExtrapolateAt(ip, methodName, left, None, x)
  {
    IncreasingEnds(ip.x);
  }

  /** The interpolator of the documented examples: samples (3, 1), (4, 2),
      (5, 3) and linear interpolation between them. */
  function ExampleInterpolator(): (ip: Interpolator)
    ensures WellFormed(ip)
  {
    Interpolator([3.0, 4.0, 5.0], [1.0, 2.0, 3.0], x => x - 2.0)
  }

  /** The documented examples: linear gives -1 at 1 and 4, 5, 6 at 6, 7, 8;
      constant gives 1, 1, 3, 3 at 0.1, 0.2, 8, 9; constant with `left` 0
      gives 0, 0, 3, 3 there. */
  lemma DocumentedExamples()
    ensures ExtrapolateAt(ExampleInterpolator(), "linear", None, None, 1.0) == -1.0
    ensures ExtrapolateAt(ExampleInterpolator(), "linear", None, None, 6.0) == 4.0
    ensures ExtrapolateAt(ExampleInterpolator(), "linear", None, None, 7.0) == 5.0
    ensures ExtrapolateAt(ExampleInterpolator(), "linear", None, None, 8.0) == 6.0
    ensures ExtrapolateAt(ExampleInterpolator(), "constant", None, None, 0.1) == 1.0
    ensures ExtrapolateAt(ExampleInterpolator(), "constant", None, None, 0.2) == 1.0
    ensures ExtrapolateAt(ExampleInterpolator(), "constant", None, None, 8.0) == 3.0
    ensures ExtrapolateAt(ExampleInterpolator(), "constant", None, None, 9.0) == 3.0
    ensures ExtrapolateAt(ExampleInterpolator(), "constant", Some(0.0), None, 0.1) == 0.0
    ensures ExtrapolateAt(ExampleInterpolator(), "constant", Some(0.0), None, 0.2) == 0.0
    ensures ExtrapolateAt(ExampleInterpolator(), "constant", Some(0.0), None, 8.0) == 3.0
    ensures ExtrapolateAt(ExampleInterpolator(), "constant", Some(0.0), None, 9.0) == 3.0
  {
  }

  /** Masked assignment `y[mask] = f(x[mask])` into a buffer whose `None`
      slots have not been written: every slot whose input the mask selects
      gets `f` of that input; every other slot keeps its content. */
  method AssignWhere(y: array<Option<real>>, xs: seq<real>, mask: real -> bool, f: real -> real)
    requires y.Length == |xs|
    modifies y
    ensures forall i :: 0 <= i < |xs| ==> y[i] == (if mask(xs[i]) then Some(f(xs[i])) else old(y[i]))
  {
    var i := 0;
    while i < |xs|
      invariant 0 <= i <= |xs|
      invariant forall j :: 0 <= j < i ==> y[j] == (if mask(xs[j]) then Some(f(xs[j])) else old(y[j]))
      invariant forall j :: i <= j < |xs| ==> y[j] == old(y[j])
    {
      if mask(xs[i]) {
        y[i] := Some(f(xs[i]));
      }
      i := i + 1;
    }
  }

  /** One slot after the method pass, given its content before: the below
      assignment, then the above assignment, of the stored method; a name
      other than "linear" or "constant" writes nothing. */
  function MethodPassAt(ip: Interpolator, methodName: string, x: real, prev: Option<real>): Option<real>
    requires |ip.x| >= 2 && |ip.y| == |ip.x|
  {
    var n := |ip.x|;
    if methodName == "linear" then
      var afterBelow := if Below(ip, x) then Some(LinearBelow(ip, x)) else prev;
      if Above(ip, x) then Some(LinearAbove(ip, x)) else afterBelow
    else if methodName == "constant" then
      var afterBelow := if Below(ip, x) then Some(ip.y[0]) else prev;
      if Above(ip, x) then Some(ip.y[n - 1]) else afterBelow
    else prev
  }

  /** One slot after the override pass: `left` where below, then `right`
      where above, each only when set. */
  function OverridePassAt(ip: Interpolator, left: Option<real>, right: Option<real>, x: real, prev: Option<real>): Option<real>
    requires |ip.x| > 0
  {
    var afterLeft := if left.Some? && Below(ip, x) then left else prev;
    if right.Some? && Above(ip, x) then right else afterLeft
  }

  /** One slot after the in-range pass: the interpolator's value where the
      input lies in the closed range. */
  function InRangePassAt(ip: Interpolator, x: real, prev: Option<real>): Option<real>
    requires |ip.x| > 0
  {
    if InRange(ip, x) then Some(ip.eval(x)) else prev
  }

  /** The three passes, run on a slot nobody has written, write it, and what
      they write is the extrapolated value of the slot's input: the in-range
      pass wins over everything, an override over its side's method value. */
  lemma PassesCompose(ip: Interpolator, methodName: string, left: Option<real>, right: Option<real>, x: real)
    requires WellFormed(ip) && IsMethodName(methodName)
    ensures InRangePassAt(ip, x, OverridePassAt(ip, left, right, x, MethodPassAt(ip, methodName, x, None)))
      == Some(ExtrapolateAt(ip, methodName, left, right, x))
  {
    ClassesPartition(ip, x);
  }

  /** The contents of a buffer every slot of which has been written. */
  function Written(buffer: seq<Option<real>>): (r: seq<real>)
    requires forall i :: 0 <= i < |buffer| ==> buffer[i].Some?
    ensures |r| == |buffer|
    ensures forall i :: 0 <= i < |buffer| ==> buffer[i] == Some(r[i])
  {
    if buffer == [] then [] else [buffer[0].value] + Written(buffer[1..])
  }

  /** The checks of the `interpolator` setter: the object must have an `x`
      attribute, then a `y` attribute. */
  function InterpolatorCheck(c: Candidate): (o: Outcome)
    ensures o.Pass? <==> c.x.Some? && c.y.Some?
    ensures c.x.None? ==> o == Fail(MissingAttribute("x"))
    ensures c.x.Some? && c.y.None? ==> o == Fail(MissingAttribute("y"))
  {
    if c.x.None? then Fail(MissingAttribute("x"))
    else if c.y.None? then Fail(MissingAttribute("y"))
    else Pass
  }

  /** The checks of the `method` setter: a string, equal to "Linear" or
      "Constant" up to case; the name kept is the lower-cased one. */
  function MethodCheck(v: Value): (r: Result<string>)
    ensures r.Success? <==> v.Str? && IsMethodName(Lower(v.s))
    ensures r.Success? ==> r.value == Lower(v.s) && IsMethodName(r.value)
    ensures !v.Str? ==> r == Failure(NotAString(v))
    ensures v.Str? && r.Failure? ==> r == Failure(InvalidMethod(v.s, METHODS))
  {
    assert Lower("Linear") == "linear" && Lower("Constant") == "constant";
    if !v.Str? then Failure(NotAString(v)) else ValidateMethod(v.s, METHODS)
  }

  /** The method setter accepts the registered names in any case and keeps
      them lower-cased, and rejects "Cubic" and every non-string. */
  lemma MethodNames()
    ensures MethodCheck(Str("Linear")) == Success("linear")
    ensures MethodCheck(Str("LINEAR")) == Success("linear")
    ensures MethodCheck(Str("constant")) == Success("constant")
    ensures MethodCheck(Str("Cubic")) == Failure(InvalidMethod("Cubic", METHODS))
    ensures MethodCheck(Number(1.0)) == Failure(NotAString(Number(1.0)))
  {
    assert Lower("Linear") == "linear" && Lower("Constant") == "constant";
    assert LowerAll(METHODS) == ["linear", "constant"];
    assert Lower("LINEAR") == "linear";
    assert Lower("Cubic") == "cubic";
    assert "cubic" !in LowerAll(METHODS);
  }

  /** Getter and setter round trip: the name the `method` getter returns
      after a successful set is accepted again, and stored unchanged. */
  lemma MethodRoundTrip(v: Value)
    requires MethodCheck(v).Success?
    ensures MethodCheck(Str(MethodCheck(v).value)) == MethodCheck(v)
  {
    LowerIdempotent(v.s);
  }

  /** The check of the `left` and `right` setters on a value other than
      `None`: it must be a number. */
  function OverrideCheck(v: Value): (o: Outcome)
    ensures o.Pass? <==> v.NoneValue? || v.Number?
    ensures o.Fail? ==> o == Fail(NotANumber(v))
  {
    if v.NoneValue? || v.Number? then Pass else Fail(NotANumber(v))
  }

  /** `optional(method, "Linear")`: the method name the constructor passes
      to the setter. */
  function MethodOrDefault(v: Value): Value
  {
    if v.NoneValue? then Str("Linear") else v
  }

  /** The first error the constructor's setters raise, in the order they
      run: interpolator, method, right, left. */
  function ConstructionError(interpolator: Option<Candidate>, methodName: Value, left: Value, right: Value): Option<Error>
  {
    if interpolator.Some? && InterpolatorCheck(interpolator.value).Fail? then
      Some(InterpolatorCheck(interpolator.value).error)
    else if MethodCheck(MethodOrDefault(methodName)).Failure? then
      Some(MethodCheck(MethodOrDefault(methodName)).error)
    else if OverrideCheck(right).Fail? then Some(OverrideCheck(right).error)
    else if OverrideCheck(left).Fail? then Some(OverrideCheck(left).error)
    else None
  }

  class Extrapolator {
    /** `None` stands for the placeholder interpolator installed when none is
        given (an interpolator over the infinite range). */
    var interpolator: Option<Interpolator>
    var methodName: string
    var left: Option<real>
    var right: Option<real>

    /** The configuration every published extrapolator keeps. */
    ghost predicate Valid()
      reads this
    {
      IsMethodName(methodName)
    }

    /** The fields as `__init__` sets them before running the setters. */
    constructor Defaults()
      ensures interpolator == None && methodName == "Linear" && left == None && right == None
    {
      interpolator := None;
      methodName := "Linear";
      left := None;
      right := None;
    }

    /** `Extrapolator(interpolator, method, left, right)`: the defaults, then
        the setters in source order; the first setter that raises aborts the
        construction, so no object with a partial configuration escapes. */
    static method Create(interpolator: Option<Candidate>, methodName: Value, left: Value, right: Value)
      returns (r: Result<Extrapolator>)
      ensures r.Failure? <==> ConstructionError(interpolator, methodName, left, right).Some?
      ensures r.Failure? ==> r.error == ConstructionError(interpolator, methodName, left, right).value
      ensures r.Success? ==> fresh(r.value) && r.value.Valid()
      ensures r.Success? ==> r.value.methodName == Lower(MethodOrDefault(methodName).s)
      ensures r.Success? && interpolator.None? ==> r.value.interpolator == None
      ensures r.Success? && interpolator.Some? ==>
        r.value.interpolator == Some(Interpolator(interpolator.value.x.value, interpolator.value.y.value, interpolator.value.eval))
      ensures r.Success? ==> r.value.left == (if left.Number? then Some(left.r) else None)
      ensures r.Success? ==> r.value.right == (if right.Number? then Some(right.r) else None)
    {
      var e := new Extrapolator.Defaults();
      var o: Outcome;
      if interpolator.Some? {
        o := e.SetInterpolator(interpolator.value);
        if o.Fail? { return Failure(o.error); }
      }
      ghost var checked := MethodCheck(MethodOrDefault(methodName));
      o := e.SetMethod(MethodOrDefault(methodName));
      if o.Fail? {
        assert ConstructionError(interpolator, methodName, left, right) == Some(checked.error);
        return Failure(o.error);
      }
      assert checked.Success?;
      o := e.SetRight(right);
      if o.Fail? { return Failure(o.error); }
      o := e.SetLeft(left);
      if o.Fail? { return Failure(o.error); }
      assert ConstructionError(interpolator, methodName, left, right) == None;
      r := Success(e);
    }

    /** The `interpolator` setter: an object lacking `x` or `y` is rejected
        before anything is replaced; otherwise it becomes the interpolator. */
    method SetInterpolator(value: Candidate) returns (outcome: Outcome)
      modifies this`interpolator
      ensures outcome == InterpolatorCheck(value)
      ensures outcome.Fail? ==> interpolator == old(interpolator)
      ensures outcome.Pass? ==> interpolator == Some(Interpolator(value.x.value, value.y.value, value.eval))
    {
      outcome := InterpolatorCheck(value);
      if outcome.Pass? {
        interpolator := Some(Interpolator(value.x.value, value.y.value, value.eval));
      }
    }

    /** The `method` setter: only a string naming "Linear" or "Constant" up
        to case is accepted, and the lower-cased name is stored. */
    method SetMethod(value: Value) returns (outcome: Outcome)
      modifies this`methodName
      ensures outcome.Pass? <==> MethodCheck(value).Success?
      ensures outcome.Fail? ==> outcome.error == MethodCheck(value).error && methodName == old(methodName)
      ensures outcome.Pass? ==> methodName == Lower(value.s) && Valid()
    {
      var checked := MethodCheck(value);
      if checked.Failure? {
        return Fail(checked.error);
      }
      methodName := checked.value;
      outcome := Pass;
    }

    /** The `left` setter: `None` is ignored, a number replaces the
        override, anything else is rejected. */
    method SetLeft(value: Value) returns (outcome: Outcome)
      modifies this`left
      ensures outcome == OverrideCheck(value)
      ensures value.Number? ==> left == Some(value.r)
      ensures !value.Number? ==> left == old(left)
    {
      outcome := OverrideCheck(value);
      if value.Number? {
        left := Some(value.r);
      }
    }

    /** The `right` setter, the mirror image of the `left` one. */
    method SetRight(value: Value) returns (outcome: Outcome)
      modifies this`right
      ensures outcome == OverrideCheck(value)
      ensures value.Number? ==> right == Some(value.r)
      ensures !value.Number? ==> right == old(right)
    {
      outcome := OverrideCheck(value);
      if value.Number? {
        right := Some(value.r);
      }
    }

    /** The method pass of `_evaluate`: the `linear` or `constant`
        assignments below and above the range. */
    static method MethodPass(y: array<Option<real>>, xs: seq<real>, ip: Interpolator, methodName: string)
      requires y.Length == |xs| && |ip.x| >= 2 && |ip.y| == |ip.x|
      modifies y
      ensures forall i :: 0 <= i < |xs| ==> y[i] == MethodPassAt(ip, methodName, xs[i], old(y[i]))
    {
      var xi, yi, n := ip.x, ip.y, |ip.x|;
      if methodName == "linear" {
        AssignWhere(y, xs, x => x < xi[0], x => LinearBelow(ip, x));
        ghost var afterBelow := y[..];
        assert forall i :: 0 <= i < |xs| ==>
          afterBelow[i] == if Below(ip, xs[i]) then Some(LinearBelow(ip, xs[i])) else old(y[i]);
        AssignWhere(y, xs, x => x > xi[n - 1], x => LinearAbove(ip, x));
      } else if methodName == "constant" {
        AssignWhere(y, xs, x => x < xi[0], _ => yi[0]);
        ghost var afterBelow := y[..];
        assert forall i :: 0 <= i < |xs| ==> afterBelow[i] == if Below(ip, xs[i]) then Some(yi[0]) else old(y[i]);
        AssignWhere(y, xs, x => x > xi[n - 1], _ => yi[n - 1]);
      }
    }

    /** The override pass of `_evaluate`: `left` below the range, then
        `right` above it, each only when set. */
    static method OverridePass(y: array<Option<real>>, xs: seq<real>, ip: Interpolator, left: Option<real>, right: Option<real>)
      requires y.Length == |xs| && |ip.x| > 0
      modifies y
      ensures forall i :: 0 <= i < |xs| ==> y[i] == OverridePassAt(ip, left, right, xs[i], old(y[i]))
    {
      var xi, n := ip.x, |ip.x|;
      if left.Some? {
        var l := left.value;
        AssignWhere(y, xs, x => x < xi[0], _ => l);
      }
      if right.Some? {
        var r := right.value;
        AssignWhere(y, xs, x => x > xi[n - 1], _ => r);
      }
    }

    /** `_evaluate`: a buffer the size of the input with no slot written
        (`np.empty_like`), filled by the method pass, the override pass and
        the in-range pass.  Every slot ends up written, and every element is
        the extrapolated value of its own input. */
    method Evaluate(xs: seq<real>) returns (ys: seq<real>)
      requires Valid() && interpolator.Some? && WellFormed(interpolator.value)
      ensures |ys| == |xs|
      ensures forall i :: 0 <= i < |xs| ==> ys[i] == ExtrapolateAt(interpolator.value, methodName, left, right, xs[i])
    {
      var ip := interpolator.value;
      var xi, n := ip.x, |ip.x|;
      var y := new Option<real>[|xs|](_ => None);
      MethodPass(y, xs, ip, methodName);
      OverridePass(y, xs, ip, left, right);
      AssignWhere(y, xs, x => xi[0] <= x && x <= xi[n - 1], ip.eval);
      forall i | 0 <= i < |xs|
        ensures y[i] == Some(ExtrapolateAt(ip, methodName, left, right, xs[i]))
      {
        PassesCompose(ip, methodName, left, right, xs[i]);
      }
      ys := Written(y[..]);
    }

    /** `__call__` on a single number: a scalar in, a scalar out. */
    method Call(x: real) returns (y: real)
      requires Valid() && interpolator.Some? && WellFormed(interpolator.value)
      ensures y == ExtrapolateAt(interpolator.value, methodName, left, right, x)
    {
      var ys := Evaluate([x]);
      y := ys[0];
    }
  }
}
