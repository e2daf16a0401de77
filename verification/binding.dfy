/**
 * `call_func` of base_processor.py: bind the raw arguments to a handler's declared
 * parameters (what `inspect.getcallargs` does), then coerce every annotated
 * parameter with its annotation, keeping the raw value when the conversion
 * raises ValueError.
 */
module Binding {
  import opened Wrappers
  import opened Errors
  import opened Values
  import opened Registry

  /** The parameters `params` with the arguments `args` in front, defaults for the rest. */
  function BindFrom(params: seq<Param>, args: seq<Value>): Result<seq<Value>, Error>
    requires |args| <= |params|
    decreases |params|
  {
    if params == [] then Ok([])
    else if |args| == 0 && params[0].default.None? then Err(MissingArgument(params[0].name))
    else
      var v := if |args| > 0 then args[0] else params[0].default.value;
      var rest := BindFrom(params[1..], if |args| > 0 then args[1..] else []);
      if rest.Err? then rest else Ok([v] + rest.value)
  }

  /** Binding succeeds exactly when every parameter left without argument has a default. */
  lemma {:induction false} BindFromSpec(params: seq<Param>, args: seq<Value>)
    requires |args| <= |params|
    ensures BindFrom(params, args).Ok? <==> forall i :: |args| <= i < |params| ==> params[i].default.Some?
    ensures BindFrom(params, args).Ok? ==> |BindFrom(params, args).value| == |params|
    ensures BindFrom(params, args).Ok? ==> forall i :: 0 <= i < |params| ==>
      BindFrom(params, args).value[i] == if i < |args| then args[i] else params[i].default.value
    ensures BindFrom(params, args).Err? ==>
      exists i :: |args| <= i < |params| && params[i].default.None? &&
                  BindFrom(params, args).error == MissingArgument(params[i].name)
    decreases |params|
  {
    if params == [] || (|args| == 0 && params[0].default.None?) {
      return;
    }
    var args' := if |args| > 0 then args[1..] else [];
    var k := |args| - |args'|;
    assert k == 1 || (k == 0 && args == []);
    BindFromSpec(params[1..], args');
    var r, rest := BindFrom(params, args), BindFrom(params[1..], args');
    assert forall i :: |args'| <= i < |params| - 1 ==> params[1..][i] == params[i + 1];
    if rest.Ok? {
      assert forall i :: |args| <= i < |params| ==> params[i].default.Some? by {
        forall i | |args| <= i < |params| ensures params[i].default.Some? {
          if i > 0 { assert params[1..][i - 1] == params[i]; }
        }
      }
      forall i | 0 <= i < |params|
        ensures r.value[i] == if i < |args| then args[i] else params[i].default.value
      {
        if i > 0 {
          assert r.value[i] == rest.value[i - 1];
          assert params[1..][i - 1] == params[i];
          if |args| > 0 && i < |args| { assert args'[i - 1] == args[i]; }
        }
      }
    } else {
      var j :| |args'| <= j < |params| - 1 && params[1..][j].default.None? && rest.error == MissingArgument(params[1..][j].name);
      assert params[j + 1] == params[1..][j];
      assert |args| <= j + 1;
    }
  }

  /**
   * `getcallargs(f, raw, cmd, *args)` with `self` removed, for the parameters after
   * `raw` and `cmd`: too many positional arguments, or a parameter without
   * default left without a value, raise TypeError.
   */
  function Bind(params: seq<Param>, args: seq<Value>): (r: Result<seq<Value>, Error>)
    ensures r.Ok? <==> |args| <= |params| && forall i :: |args| <= i < |params| ==> params[i].default.Some?
    ensures r.Ok? ==> |r.value| == |params|
    ensures r.Ok? ==> forall i :: 0 <= i < |params| ==>
      r.value[i] == if i < |args| then args[i] else params[i].default.value
    ensures |args| > |params| ==> r == Err(TooManyArguments)
    ensures r.Err? && |args| <= |params| ==>
      exists i :: |args| <= i < |params| && params[i].default.None? && r.error == MissingArgument(params[i].name)
  {
    if |args| > |params| then Err(TooManyArguments)
    else
      BindFromSpec(params, args);
      BindFrom(params, args)
  }

  /**
   * One step of the coercion loop: an annotated parameter gets `int(v)` or
   * `float(v)`; a ValueError keeps `v`; a TypeError escapes.
   */
  function Coerce(p: Param, v: Value): (r: Result<Value, Error>)
    ensures r.Err? <==> p.ty.Some? && Convert(p.ty.value, v).TypeError?
    ensures r.Err? ==> r.error == ConversionTypeError(p.name)
    ensures r.Ok? && p.ty.Some? && Convert(p.ty.value, v).Converted? ==> r.value == Convert(p.ty.value, v).v
    ensures r.Ok? && (p.ty.None? || Convert(p.ty.value, v).ValueError?) ==> r.value == v
  {
    match p.ty
    case None => Ok(v)
    case Some(t) =>
      match Convert(t, v)
      case Converted(w) => Ok(w)
      case ValueError => Ok(v)
      case TypeError => Err(ConversionTypeError(p.name))
  }

  /** The whole coercion loop: every parameter coerced, or the first TypeError in declaration order. */
  function CoerceAll(params: seq<Param>, vals: seq<Value>): (r: Result<seq<Value>, Error>)
    requires |params| == |vals|
    ensures r.Ok? <==> forall i :: 0 <= i < |params| ==> Coerce(params[i], vals[i]).Ok?
    ensures r.Ok? ==> |r.value| == |vals|
    ensures r.Ok? ==> forall i :: 0 <= i < |params| ==> r.value[i] == Coerce(params[i], vals[i]).value
    ensures r.Err? ==> exists i :: (0 <= i < |params| && Coerce(params[i], vals[i]) == Err(r.error) &&
                                    forall j :: 0 <= j < i ==> Coerce(params[j], vals[j]).Ok?)
  {
    if params == [] then Ok([])
    else
      match Coerce(params[0], vals[0])
      case Err(e) => Err(e)
      case Ok(w) =>
        match CoerceAll(params[1..], vals[1..])
        case Ok(rest) => Ok([w] + rest)
        case Err(e) => Err(e)
  }

  /**
   * The loop of `call_func`: rewrites the bound values in place, parameter by
   * parameter, in declaration order.
   */
  method CoerceArgs(params: seq<Param>, callargs: seq<Value>) returns (r: Result<seq<Value>, Error>)
    requires |params| == |callargs|
    ensures r == CoerceAll(params, callargs)
  {
    var bound := callargs;
    var i := 0;
    while i < |params|
      invariant 0 <= i <= |params| && |bound| == |callargs|
      invariant forall j :: 0 <= j < i ==> Coerce(params[j], callargs[j]).Ok?
      invariant forall j :: 0 <= j < i ==> bound[j] == Coerce(params[j], callargs[j]).value
      invariant bound[i..] == callargs[i..]
    {
      var c := Coerce(params[i], bound[i]);
      if c.Err? {
        r := Err(c.error);
        assert Coerce(params[i], callargs[i]) == c;
        return;
      }
      bound := bound[i := c.value];
      i := i + 1;
    }
    r := Ok(bound);
    assert bound == CoerceAll(params, callargs).value;
  }

  /** `call_func` up to the handler call: binding, then coercion. */
  function CallArgs(params: seq<Param>, args: seq<Value>): Result<seq<Value>, Error>
  {
    match Bind(params, args)
    case Err(e) => Err(e)
    case Ok(bound) => CoerceAll(params, bound)
  }

  /**
   * For a well-formed signature, a call goes through exactly when binding does and
   * no supplied argument makes its conversion raise TypeError; defaults arrive unchanged.
   */
  lemma CallArgsSpec(params: seq<Param>, args: seq<Value>)
    requires WellFormed(params)
    ensures CallArgs(params, args).Ok? <==>
      && |args| <= |params|
      && (forall i :: |args| <= i < |params| ==> params[i].default.Some?)
      && (forall i :: 0 <= i < |args| ==> Coerce(params[i], args[i]).Ok?)
    ensures CallArgs(params, args).Ok? ==>
      && |CallArgs(params, args).value| == |params|
      && (forall i :: 0 <= i < |args| ==> CallArgs(params, args).value[i] == Coerce(params[i], args[i]).value)
      && (forall i :: |args| <= i < |params| ==> CallArgs(params, args).value[i] == params[i].default.value)
  {
    var b := Bind(params, args);
    if b.Ok? {
      forall i | |args| <= i < |params| ensures Coerce(params[i], b.value[i]) == Ok(params[i].default.value) {
      }
    }
  }
}
