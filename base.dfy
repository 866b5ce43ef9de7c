/** The declarative parameter check that every endpoint adapter runs before
    it builds a request: BaseAPI.validateParams walking the endpoint's list of
    RequestParamSpec records. */
module Base {
  import opened Wrappers
  import opened JsValues
  import opened Errors

  /** What a validator function does with a value: returns true, returns
      false, or throws (the exception then propagates out of the check). */
  datatype Verdict = Accepts | Rejects | Throws(error: Error)

  function FromBool(b: bool): Verdict {
    if b then Accepts else Rejects
  }

  /** One RequestParamSpec record: the parameter's name, whether it is
      required, its declared default and its optional validator. */
  datatype ParamSpec = ParamSpec(
    name: string,
    required: bool,
    default: Option<Value>,
    validator: Option<Value -> Verdict>)

  /** Why a check stopped, and at which parameter. */
  datatype SpecFailure =
    | Missing(name: string)
    | Invalid(name: string)
    | Raised(name: string, error: Error)

  /** The exception a failing check throws: a plain Error naming the
      parameter, or whatever the validator itself threw. */
  function ErrorOf(f: SpecFailure): Error {
    match f
    case Missing(n) => PlainError("参数 " + n + " 是必填项")
    case Invalid(n) => PlainError("参数 " + n + " 验证失败")
    case Raised(_, e) => e
  }

  /** One iteration of the check: a required parameter must not be
      `undefined`; a value that is not `undefined` goes to the validator, if
      there is one. */
  function CheckSpec(spec: ParamSpec, options: Options): Outcome<SpecFailure> {
    var value := Lookup(options, spec.name);
    if spec.required && value == Undefined then Fail(Missing(spec.name))
    else if value != Undefined && spec.validator.Some? then
      match spec.validator.value(value)
      case Accepts => Pass
      case Rejects => Fail(Invalid(spec.name))
      case Throws(e) => Fail(Raised(spec.name, e))
    else Pass
  }

  /** The whole check: the specs in declaration order, stopping at the first
      one that fails. */
  function CheckSpecs(specs: seq<ParamSpec>, options: Options): Outcome<SpecFailure> {
    if |specs| == 0 then Pass
    else
      match CheckSpec(specs[0], options)
      case Fail(f) => Fail(f)
      case Pass => CheckSpecs(specs[1..], options)
  }

  /** BaseAPI.validateParams: the loop over the spec list with its two early
      throws. */
  method ValidateParams(specs: seq<ParamSpec>, options: Options) returns (r: Outcome<SpecFailure>)
    ensures r == CheckSpecs(specs, options)
  {
    var i := 0;
    while i < |specs|
      invariant 0 <= i <= |specs|
      invariant CheckSpecs(specs, options) == CheckSpecs(specs[i..], options)
    {
      assert specs[i..][0] == specs[i] && specs[i..][1..] == specs[i + 1..];
      var param := specs[i];
      var value := Lookup(options, param.name);
      if param.required && value == Undefined {
        return Fail(Missing(param.name));
      }
      if value != Undefined && param.validator.Some? {
        var verdict := param.validator.value(value);
        if verdict.Rejects? {
          return Fail(Invalid(param.name));
        } else if verdict.Throws? {
          return Fail(Raised(param.name, verdict.error));
        }
      }
      i := i + 1;
    }
    return Pass;
  }

  // -----------------------------------------------------------------------
  // One spec
  // -----------------------------------------------------------------------

  /** A required parameter fails exactly when its value is `undefined`; only
      `undefined` counts as missing, so `null` and `""` reach the validator. */
  lemma MissingIffUndefined(spec: ParamSpec, options: Options)
    ensures CheckSpec(spec, options) == Fail(Missing(spec.name))
        <==> spec.required && Lookup(options, spec.name) == Undefined
    ensures Lookup(options, spec.name) != Undefined && spec.validator.Some? ==>
              CheckSpec(spec, options) ==
                match spec.validator.value(Lookup(options, spec.name))
                case Accepts => Pass
                case Rejects => Fail(Invalid(spec.name))
                case Throws(e) => Fail(Raised(spec.name, e))
  {
  }

  /** The validator is not consulted for an `undefined` value: any other
      validator gives the same outcome. */
  lemma ValidatorSkippedWhenUndefined(spec: ParamSpec, options: Options, other: Option<Value -> Verdict>)
    requires Lookup(options, spec.name) == Undefined
    ensures CheckSpec(spec.(validator := other), options) == CheckSpec(spec, options)
  {
  }

  /** A spec without a validator never fails on a defined value. */
  lemma NoValidatorAcceptsDefined(spec: ParamSpec, options: Options)
    requires spec.validator.None? && Lookup(options, spec.name) != Undefined
    ensures CheckSpec(spec, options) == Pass
  {
  }

  // -----------------------------------------------------------------------
  // The spec list
  // -----------------------------------------------------------------------

  /** The check passes exactly when every spec passes on its own. */
  lemma {:induction false} PassIffAllPass(specs: seq<ParamSpec>, options: Options)
    ensures CheckSpecs(specs, options) == Pass
        <==> forall i :: 0 <= i < |specs| ==> CheckSpec(specs[i], options) == Pass
  {
    if |specs| > 0 {
      PassIffAllPass(specs[1..], options);
      if CheckSpec(specs[0], options) == Pass {
        forall i | 1 <= i < |specs| ensures specs[1..][i - 1] == specs[i] { }
        assert (forall i :: 0 <= i < |specs| ==> CheckSpec(specs[i], options) == Pass)
          <==> (forall i :: 0 <= i < |specs[1..]| ==> CheckSpec(specs[1..][i], options) == Pass);
      }
    }
  }

  /** When the specs before index `i` pass and spec `i` fails, the check
      reports spec `i`'s failure, whatever follows it. */
  lemma {:induction false} FirstFailureWins(specs: seq<ParamSpec>, options: Options, i: nat)
    requires i < |specs|
    requires forall j :: 0 <= j < i ==> CheckSpec(specs[j], options) == Pass
    requires CheckSpec(specs[i], options).Fail?
    ensures CheckSpecs(specs, options) == CheckSpec(specs[i], options)
  {
    if i > 0 {
      assert CheckSpec(specs[0], options) == Pass;
      forall j | 0 <= j < i - 1 ensures CheckSpec(specs[1..][j], options) == Pass {
        assert specs[1..][j] == specs[j + 1];
      }
      FirstFailureWins(specs[1..], options, i - 1);
    }
  }

  /** A failing check names a spec that fails, and every spec before it passes. */
  lemma {:induction false} FailingIndex(specs: seq<ParamSpec>, options: Options) returns (i: nat)
    requires CheckSpecs(specs, options).Fail?
    ensures i < |specs| && CheckSpec(specs[i], options) == CheckSpecs(specs, options)
    ensures forall j :: 0 <= j < i ==> CheckSpec(specs[j], options) == Pass
  {
    if CheckSpec(specs[0], options).Fail? {
      i := 0;
    } else {
      var k := FailingIndex(specs[1..], options);
      i := k + 1;
      forall j | 0 <= j < i ensures CheckSpec(specs[j], options) == Pass {
        if j > 0 {
          assert specs[j] == specs[1..][j - 1];
        }
      }
    }
  }

  /** The check of a list with a first spec: that spec, then the rest. */
  lemma CheckCons(spec: ParamSpec, rest: seq<ParamSpec>, options: Options)
    ensures CheckSpecs([spec] + rest, options) ==
              if CheckSpec(spec, options).Fail? then CheckSpec(spec, options) else CheckSpecs(rest, options)
  {
    assert ([spec] + rest)[0] == spec;
    assert ([spec] + rest)[1..] == rest;
  }

  /** A list with a first spec passes when that spec and then the rest pass. */
  lemma CheckConsPass(spec: ParamSpec, rest: seq<ParamSpec>, options: Options)
    ensures CheckSpecs([spec] + rest, options) == Pass <==>
              CheckSpec(spec, options) == Pass && CheckSpecs(rest, options) == Pass
  {
    CheckCons(spec, rest, options);
  }

  /** Specs after a failing prefix are never examined; after a passing prefix
      the rest decides. */
  lemma {:induction false} CheckAppend(a: seq<ParamSpec>, b: seq<ParamSpec>, options: Options)
    ensures CheckSpecs(a + b, options) ==
              if CheckSpecs(a, options).Fail? then CheckSpecs(a, options) else CheckSpecs(b, options)
  {
    if |a| == 0 {
      assert a + b == b;
    } else {
      assert (a + b)[0] == a[0];
      assert (a + b)[1..] == a[1..] + b;
      CheckAppend(a[1..], b, options);
    }
  }

  /** Every spec with its `default` replaced by `d`. */
  function WithDefault(specs: seq<ParamSpec>, d: Option<Value>): (r: seq<ParamSpec>)
    ensures |r| == |specs|
    ensures forall i :: 0 <= i < |specs| ==>
              r[i].name == specs[i].name && r[i].required == specs[i].required && r[i].default == d
  {
    seq(|specs|, i requires 0 <= i < |specs| => specs[i].(default := d))
  }

  /** Declared defaults are never consulted (nor applied): changing them
      changes nothing about the outcome. */
  lemma {:induction false} DefaultsIgnored(specs: seq<ParamSpec>, options: Options, d: Option<Value>)
    ensures CheckSpecs(WithDefault(specs, d), options) == CheckSpecs(specs, options)
  {
    if |specs| > 0 {
      var w := WithDefault(specs, d);
      assert w[0] == specs[0].(default := d);
      assert CheckSpec(w[0], options) == CheckSpec(specs[0], options);
      assert w[1..] == WithDefault(specs[1..], d);
      DefaultsIgnored(specs[1..], options, d);
    }
  }

  /** Only the keys the specs name matter: options that agree on them get
      the same outcome, whatever other keys they carry. */
  lemma {:induction false} OnlyNamedKeysMatter(specs: seq<ParamSpec>, o1: Options, o2: Options)
    requires forall i :: 0 <= i < |specs| ==> Lookup(o1, specs[i].name) == Lookup(o2, specs[i].name)
    ensures CheckSpecs(specs, o1) == CheckSpecs(specs, o2)
  {
    if |specs| > 0 {
      assert Lookup(o1, specs[0].name) == Lookup(o2, specs[0].name);
      assert CheckSpec(specs[0], o1) == CheckSpec(specs[0], o2);
      forall i | 0 <= i < |specs[1..]|
        ensures Lookup(o1, specs[1..][i].name) == Lookup(o2, specs[1..][i].name)
      {
        assert specs[1..][i] == specs[i + 1];
      }
      OnlyNamedKeysMatter(specs[1..], o1, o2);
    }
  }
}
