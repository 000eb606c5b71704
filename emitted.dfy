/**
 * Behaviour of the code the generator emits (handlers_gen/codegen.go, codeTmpl and validTmpl),
 * as an interpreter over the descriptors instead of as rendered text: per-receiver dispatch,
 * the auth and method gates, decoding with FillValue, the rule-by-rule validator and the
 * response envelope.
 */
module Emitted {
  import opened Wrappers
  import opened Strings
  import opened Codegen
  import opened Runtime

  /** The form key of a field: its `paramname` when set, else its Go name. */
  function WireName(f: StructField): string
  {
    if f.customName != "" then f.customName else f.name
  }

  /** The value a field's FillValue call yields. */
  function FieldFill(f: StructField, r: Request): Result<FieldValue, ApiError>
  {
    FillValue(WireName(f), f.typ, r)
  }

  /** Fields are decoded in order; the first failing one answers the request. */
  function Decode(fields: seq<StructField>, r: Request): (res: Result<seq<FieldValue>, ApiError>)
    ensures res.Ok? ==> |res.value| == |fields| &&
                        forall i :: 0 <= i < |fields| ==> FieldFill(fields[i], r) == Ok(res.value[i])
    ensures res.Ok? <==> forall i :: 0 <= i < |fields| ==> FieldFill(fields[i], r).Ok?
  {
    if |fields| == 0 then Ok([])
    else
      match FieldFill(fields[0], r)
      case Err(e) => Err(e)
      case Ok(v) =>
        assert forall i :: 1 <= i < |fields| ==> fields[i] == fields[1..][i - 1];
        match Decode(fields[1..], r)
        case Err(e) => Err(e)
        case Ok(vs) => Ok([v] + vs)
  }

  /** A failed decoding answers with the error of the first field that fails. */
  lemma {:induction false} DecodeFirstError(fields: seq<StructField>, r: Request)
    requires Decode(fields, r).Err?
    ensures exists i :: 0 <= i < |fields| && FieldFill(fields[i], r) == Err(Decode(fields, r).error) &&
                        forall j :: 0 <= j < i ==> FieldFill(fields[j], r).Ok?
  {
    var e := Decode(fields, r).error;
    if FieldFill(fields[0], r).Err? {
      assert FieldFill(fields[0], r) == Err(e);
    } else {
      var rest := fields[1..];
      DecodeFirstError(rest, r);
      var i :| 0 <= i < |rest| && FieldFill(rest[i], r) == Err(e) &&
               forall j :: 0 <= j < i ==> FieldFill(rest[j], r).Ok?;
      assert FieldFill(fields[i + 1], r) == Err(e);
      assert forall j :: 1 <= j < i + 1 ==> fields[j] == rest[j - 1];
    }
  }

  /**
   * A decoded value the `val.(T)` assertion building the params struct accepts: FillValue
   * yields an int for "int" and a string for every other type, so only these two pass.
   */
  predicate Typed(typ: string, v: FieldValue)
  {
    (typ == "int" && v.Int?) || (typ == "string" && v.Str?)
  }

  /**
   * A field whose generated code cannot panic: its type is int or string, so the params
   * struct can be built, and an `enum` rule, which asserts a string, sits on a string field.
   * (`min` and `max` assert an int on every non-string field, which the type already rules in.)
   */
  predicate PanicFree(f: StructField)
  {
    (f.typ == "int" || f.typ == "string") &&
    forall j :: 0 <= j < |f.validators| && f.validators[j].name == "enum" ==> f.typ == "string"
  }

  predicate PanicFreeFields(fields: seq<StructField>)
  {
    forall i :: 0 <= i < |fields| ==> PanicFree(fields[i])
  }

  predicate WellTyped(fields: seq<StructField>, vals: seq<FieldValue>)
  {
    |vals| == |fields| && forall i :: 0 <= i < |fields| ==> Typed(fields[i].typ, vals[i])
  }

  /** Decoded values have the types of their fields, so the params struct can be built. */
  lemma DecodeWellTyped(fields: seq<StructField>, r: Request)
    requires PanicFreeFields(fields)
    requires Decode(fields, r).Ok?
    ensures WellTyped(fields, Decode(fields, r).value)
  {
  }

  // ----- the rule interpreter (validTmpl) -----

  datatype Outcome = Pass(param: seq<FieldValue>) | Fail(err: ApiError)

  function StrOf(v: FieldValue): string
  {
    if v.Str? then v.s else ""
  }

  function IntOf(v: FieldValue): int
  {
    if v.Int? then v.i else 0
  }

  /** The zero value `required` compares with. */
  predicate IsZero(v: FieldValue)
  {
    v == Str("") || v == Int(0)
  }

  function Bound(v: Validator): int
  {
    var n := Atoi(v.value);
    if n.Some? then n.value else 0
  }

  /** The error of a failed rule: status 400 and a message that starts with the lower-cased field name. */
  function Violation(msg: string): Outcome
  {
    Fail(ApiError(StatusBadRequest, msg))
  }

  /** One rule on field `k` of the local params copy. */
  function ApplyRule(f: StructField, k: nat, v: Validator, param: seq<FieldValue>): (o: Outcome)
    requires k < |param|
    ensures o.Fail? ==> o.err.httpStatus == StatusBadRequest
    ensures o.Pass? ==> |o.param| == |param|
    ensures o.Pass? && v.name != "default" ==> o.param == param
    ensures v.name == "default" ==> o == Pass(param[k := Str(v.value)])
    ensures v.name == "required" ==> (o.Fail? <==> IsZero(param[k]))
    ensures v.name == "min" && f.typ == "string" ==> (o.Fail? <==> |StrOf(param[k])| < Bound(v))
    ensures v.name == "min" && f.typ != "string" ==> (o.Fail? <==> IntOf(param[k]) < Bound(v))
    ensures v.name == "max" && f.typ == "string" ==> (o.Fail? <==> |StrOf(param[k])| > Bound(v))
    ensures v.name == "max" && f.typ != "string" ==> (o.Fail? <==> IntOf(param[k]) > Bound(v))
    ensures v.name == "enum" ==> (o.Fail? <==> StrOf(param[k]) !in Split(v.value, '|'))
    ensures v.name !in ["required", "min", "max", "enum", "default"] ==> o == Pass(param)
  {
    var x := param[k];
    if v.name == "required" then
      if IsZero(x) then Violation(ToLower(f.name) + " must me not empty") else Pass(param)
    else if v.name == "min" then
      if f.typ == "string" then
        if |StrOf(x)| < Bound(v) then Violation(ToLower(f.name) + " len must be >= " + FormatInt(Bound(v))) else Pass(param)
      else
        if IntOf(x) < Bound(v) then Violation(ToLower(f.name) + " must be >= " + FormatInt(Bound(v))) else Pass(param)
    else if v.name == "max" then
      if f.typ == "string" then
        if |StrOf(x)| > Bound(v) then Violation(ToLower(f.name) + " len must be <= " + FormatInt(Bound(v))) else Pass(param)
      else
        if IntOf(x) > Bound(v) then Violation(ToLower(f.name) + " must be <= " + FormatInt(Bound(v))) else Pass(param)
    else if v.name == "enum" then
      var options := Split(v.value, '|');
      if StrOf(x) in options then Pass(param)
      else Violation(ToLower(f.name) + " must be one of [" + Join(options, ", ") + "]")
    else if v.name == "default" then
      Pass(param[k := Str(v.value)])
    else
      Pass(param)
  }

  /** The rules of field `k`, in tag order, each on the params as the earlier ones left them. */
  function RunRules(f: StructField, k: nat, rules: seq<Validator>, param: seq<FieldValue>): (o: Outcome)
    requires k < |param|
    ensures o.Fail? ==> o.err.httpStatus == StatusBadRequest
    ensures o.Pass? ==> |o.param| == |param|
  {
    if |rules| == 0 then Pass(param)
    else
      match ApplyRule(f, k, rules[0], param)
      case Fail(e) => Fail(e)
      case Pass(p) => RunRules(f, k, rules[1..], p)
  }

  /** Fields `k..` in declaration order. */
  function RunFields(fields: seq<StructField>, k: nat, param: seq<FieldValue>): (o: Outcome)
    requires k <= |fields| == |param|
    ensures o.Fail? ==> o.err.httpStatus == StatusBadRequest
    ensures o.Pass? ==> |o.param| == |param|
    decreases |fields| - k
  {
    if k == |fields| then Pass(param)
    else
      match RunRules(fields[k], k, fields[k].validators, param)
      case Fail(e) => Fail(e)
      case Pass(p) => RunFields(fields, k + 1, p)
  }

  /** What the generated Validate function returns: the first failing rule's error, or nil. */
  function ValidationError(fields: seq<StructField>, param: seq<FieldValue>): Option<ApiError>
    requires |param| == |fields|
  {
    match RunFields(fields, 0, param)
    case Fail(e) => Some(e)
    case Pass(_) => None
  }

  /** The rest of a validation once the rules `rules` of field `k` are still to run. */
  function Resume(fields: seq<StructField>, k: nat, rules: seq<Validator>, param: seq<FieldValue>): Outcome
    requires k < |fields| == |param|
  {
    match RunRules(fields[k], k, rules, param)
    case Fail(e) => Fail(e)
    case Pass(p) => RunFields(fields, k + 1, p)
  }

  /**
   * The generated Validate<Struct>(param) function: rules run field by field, `required` records a
   * pending error, `default` overwrites the local copy and clears the pending error, and every
   * other rule is followed by a check that returns the pending error.
   */
  method Validate(fields: seq<StructField>, param0: seq<FieldValue>) returns (err: Option<ApiError>)
    requires |param0| == |fields|
    ensures err == ValidationError(fields, param0)
    ensures err.Some? ==> err.value.httpStatus == StatusBadRequest
  {
    var param := param0;
    var isReqErr := false;
    var reqErr: Option<ApiError> := None;
    for k := 0 to |fields|
      invariant |param| == |fields|
      invariant !isReqErr
      invariant RunFields(fields, 0, param0) == RunFields(fields, k, param)
    {
      var f := fields[k];
      var rules := f.validators;
      for j := 0 to |rules|
        invariant |param| == |fields|
        invariant !isReqErr
        invariant RunFields(fields, 0, param0) == Resume(fields, k, rules[j..], param)
      {
        var v := rules[j];
        assert rules[j..] == [v] + rules[j + 1..];
        var x := param[k];
        if v.name == "required" {
          if x == Str("") || x == Int(0) {
            reqErr := Some(ApiError(StatusBadRequest, ToLower(f.name) + " must me not empty"));
            isReqErr := true;
          }
        }
        if v.name == "min" {
          var bound := Atoi(v.value);
          var n := if bound.Some? then bound.value else 0;
          if f.typ == "string" {
            if |StrOf(x)| < n {
              return Some(ApiError(StatusBadRequest, ToLower(f.name) + " len must be >= " + FormatInt(n)));
            }
          } else if IntOf(x) < n {
            assert ApplyRule(f, k, v, param).Fail?;
            return Some(ApiError(StatusBadRequest, ToLower(f.name) + " must be >= " + FormatInt(n)));
          }
        }
        if v.name == "max" {
          var bound := Atoi(v.value);
          var n := if bound.Some? then bound.value else 0;
          if f.typ == "string" {
            if |StrOf(x)| > n {
              return Some(ApiError(StatusBadRequest, ToLower(f.name) + " len must be <= " + FormatInt(n)));
            }
          } else if IntOf(x) > n {
            assert ApplyRule(f, k, v, param).Fail?;
            return Some(ApiError(StatusBadRequest, ToLower(f.name) + " must be <= " + FormatInt(n)));
          }
        }
        if v.name == "enum" {
          var enumVal := Split(v.value, '|');
          var findVal := FindValue(enumVal, StrOf(x));
          if !findVal {
            return Some(ApiError(StatusBadRequest, ToLower(f.name) + " must be one of [" + Join(enumVal, ", ") + "]"));
          }
        }
        if v.name == "default" {
          param := param[k := Str(v.value)];
          isReqErr := false;
          reqErr := None;
        } else {
          if isReqErr {
            return reqErr;
          }
        }
      }
      assert rules[|rules|..] == [];
    }
    err := None;
  }

  // ----- properties of the rule interpreter -----

  /** Trailing fields that carry no rules neither fail nor change the params. */
  lemma {:induction false} NoRulesNoError(fields: seq<StructField>, k: nat, param: seq<FieldValue>)
    requires k <= |fields| == |param|
    requires forall i :: k <= i < |fields| ==> fields[i].validators == []
    ensures RunFields(fields, k, param) == Pass(param)
    decreases |fields| - k
  {
    if k < |fields| {
      NoRulesNoError(fields, k + 1, param);
    }
  }

  /** `required` on a zero value fails at once: no later rule, `default` included, rescues it. */
  lemma RequiredNotRescued(fields: seq<StructField>, k: nat, rest: seq<Validator>, param: seq<FieldValue>)
    requires k < |fields| == |param|
    requires IsZero(param[k])
    ensures Resume(fields, k, [Validator("required", "")] + rest, param)
         == Fail(ApiError(StatusBadRequest, ToLower(fields[k].name) + " must me not empty"))
  {
  }

  /** A `default` placed before `required` fills an empty field, so `required` then passes. */
  lemma DefaultBeforeRequired(fields: seq<StructField>, k: nat, d: string, rest: seq<Validator>, param: seq<FieldValue>)
    requires k < |fields| == |param|
    requires d != ""
    ensures Resume(fields, k, [Validator("default", d), Validator("required", "")] + rest, param)
         == Resume(fields, k, rest, param[k := Str(d)])
  {
    var rules := [Validator("default", d), Validator("required", "")] + rest;
    assert rules[1..] == [Validator("required", "")] + rest;
    assert rules[1..][1..] == rest;
    var p1 := param[k := Str(d)];
    assert ApplyRule(fields[k], k, rules[0], param) == Pass(p1);
    assert RunRules(fields[k], k, rules, param) == RunRules(fields[k], k, rules[1..], p1);
    assert ApplyRule(fields[k], k, rules[1..][0], p1) == Pass(p1);
    assert RunRules(fields[k], k, rules[1..], p1) == RunRules(fields[k], k, rest, p1);
  }

  /** The same `min` rule bounds a string's length but an integer's value, with different messages. */
  lemma MinOnStringAndInt(f: StructField, n: int, s: string, x: int)
    ensures f.typ == "string" ==>
      ApplyRule(f, 0, Validator("min", FormatInt(n)), [Str(s)])
        == if |s| < n then Fail(ApiError(StatusBadRequest, ToLower(f.name) + " len must be >= " + FormatInt(n)))
           else Pass([Str(s)])
    ensures f.typ != "string" ==>
      ApplyRule(f, 0, Validator("min", FormatInt(n)), [Int(x)])
        == if x < n then Fail(ApiError(StatusBadRequest, ToLower(f.name) + " must be >= " + FormatInt(n)))
           else Pass([Int(x)])
  {
    AtoiFormatInt(n);
    assert Bound(Validator("min", FormatInt(n))) == n;
  }

  /** `max` mirrors `min`: a string's length or an integer's value above the bound fails. */
  lemma MaxOnStringAndInt(f: StructField, n: int, s: string, x: int)
    ensures f.typ == "string" ==>
      ApplyRule(f, 0, Validator("max", FormatInt(n)), [Str(s)])
        == if |s| > n then Fail(ApiError(StatusBadRequest, ToLower(f.name) + " len must be <= " + FormatInt(n)))
           else Pass([Str(s)])
    ensures f.typ != "string" ==>
      ApplyRule(f, 0, Validator("max", FormatInt(n)), [Int(x)])
        == if x > n then Fail(ApiError(StatusBadRequest, ToLower(f.name) + " must be <= " + FormatInt(n)))
           else Pass([Int(x)])
  {
    AtoiFormatInt(n);
    assert Bound(Validator("max", FormatInt(n))) == n;
  }

  /**
   * An `enum` rule accepts exactly its alternatives and otherwise lists them comma-separated.
   */
  lemma EnumAcceptsExactlyAlternatives(f: StructField, alternatives: seq<string>, s: string)
    requires |alternatives| >= 1
    requires forall i :: 0 <= i < |alternatives| ==> '|' !in alternatives[i]
    ensures ApplyRule(f, 0, Validator("enum", Join(alternatives, "|")), [Str(s)])
         == if s in alternatives then Pass([Str(s)])
            else Fail(ApiError(StatusBadRequest, ToLower(f.name) + " must be one of [" + Join(alternatives, ", ") + "]"))
  {
    var spec := Join(alternatives, "|");
    SplitJoin(alternatives, '|');
    var v := Validator("enum", spec);
    assert v.name != "required" && v.name != "min" && v.name != "max";
    assert Split(v.value, '|') == alternatives;
    assert StrOf([Str(s)][0]) == s;
  }

  /** An empty value is not accepted by an `enum` whose alternatives are all non-empty. */
  lemma EnumHasNoEmptyFallback(f: StructField, spec: string)
    requires forall i :: 0 <= i < |Split(spec, '|')| ==> Split(spec, '|')[i] != ""
    ensures ApplyRule(f, 0, Validator("enum", spec), [Str("")]).Fail?
  {
  }

  // ----- the handler pipeline (codeTmpl) -----

  /** handler<Method>: auth gate, method gate, decode, validate, invoke, envelope. */
  function Handle<A>(p: ApiPoint, r: Request, biz: seq<FieldValue> -> BizResult<A>): Response<A>
    requires PanicFreeFields(p.inParamFields)
    requires p.json.auth ==> WellFormedAuth(r)
  {
    if p.json.auth && !Authorized(r) then Unauthorized()
    else if p.json.verb != "" && r.verb != MethodPost then BadMethod()
    else
      match Decode(p.inParamFields, r)
      case Err(e) => ErrorResponse(e.httpStatus, e.err)
      case Ok(vals) =>
        match ValidationError(p.inParamFields, vals)
        case Some(e) => ErrorResponse(e.httpStatus, e.err)
        case None => BizResponse(biz(vals))
  }

  /** The `case` of the receiver's switch that matches a path: the first endpoint with that URL. */
  function Route(points: seq<ApiPoint>, path: string): (r: Option<nat>)
    ensures r.None? <==> forall i :: 0 <= i < |points| ==> points[i].json.url != path
    ensures r.Some? ==> r.value < |points| && points[r.value].json.url == path &&
                        forall j :: 0 <= j < r.value ==> points[j].json.url != path
  {
    if |points| == 0 then None
    else if points[0].json.url == path then Some(0)
    else
      match Route(points[1..], path)
      case None => None
      case Some(i) => Some(i + 1)
  }

  /** ServeHTTP of a receiver: dispatch on the exact path, 404 "unknown method" otherwise. */
  function Serve<A>(points: seq<ApiPoint>, r: Request, biz: string -> seq<FieldValue> -> BizResult<A>): Response<A>
    requires forall i :: 0 <= i < |points| ==> PanicFreeFields(points[i].inParamFields)
    requires WellFormedAuth(r)
  {
    match Route(points, r.path)
    case None => UnknownMethod()
    case Some(i) => Handle(points[i], r, biz(points[i].methodName))
  }

  // ----- properties of the pipeline -----

  lemma UnknownPathIsNotFound<A>(points: seq<ApiPoint>, r: Request, biz: string -> seq<FieldValue> -> BizResult<A>)
    requires forall i :: 0 <= i < |points| ==> PanicFreeFields(points[i].inParamFields)
    requires WellFormedAuth(r)
    requires forall i :: 0 <= i < |points| ==> points[i].json.url != r.path
    ensures Serve(points, r, biz) == Response(StatusNotFound, "unknown method", None)
  {
  }

  /** An authenticated endpoint answers 403 without a valid token, whatever the verb or the form. */
  lemma AuthGateFirst<A>(p: ApiPoint, r: Request, biz: seq<FieldValue> -> BizResult<A>)
    requires PanicFreeFields(p.inParamFields)
    requires p.json.auth && WellFormedAuth(r) && !Authorized(r)
    ensures Handle(p, r, biz) == Response(StatusForbidden, "unauthorized", None)
  {
  }

  /** The method gate only admits POST, even when the configured verb is another one. */
  lemma MethodGateIsPostOnly<A>(p: ApiPoint, r: Request, biz: seq<FieldValue> -> BizResult<A>)
    requires PanicFreeFields(p.inParamFields)
    requires p.json.verb != "" && r.verb != MethodPost
    requires p.json.auth ==> WellFormedAuth(r) && Authorized(r)
    ensures Handle(p, r, biz) == Response(StatusNotAcceptable, "bad method", None)
    ensures p.json.verb == r.verb ==> Handle(p, r, biz).status == StatusNotAcceptable
  {
  }

  /** Once past the gates, the business method runs only on values that decode and validate. */
  lemma BusinessNeedsValidInput<A>(p: ApiPoint, r: Request, biz: seq<FieldValue> -> BizResult<A>)
    requires PanicFreeFields(p.inParamFields)
    requires p.json.auth ==> WellFormedAuth(r) && Authorized(r)
    requires p.json.verb == "" || r.verb == MethodPost
    ensures Decode(p.inParamFields, r).Err? ==>
              Handle(p, r, biz) == Response(Decode(p.inParamFields, r).error.httpStatus, Decode(p.inParamFields, r).error.err, None)
    ensures Decode(p.inParamFields, r).Ok? && ValidationError(p.inParamFields, Decode(p.inParamFields, r).value).Some? ==>
              var e := ValidationError(p.inParamFields, Decode(p.inParamFields, r).value).value;
              e.httpStatus == StatusBadRequest && Handle(p, r, biz) == Response(e.httpStatus, e.err, None)
    ensures Decode(p.inParamFields, r).Ok? && ValidationError(p.inParamFields, Decode(p.inParamFields, r).value).None? ==>
              Handle(p, r, biz) == BizResponse(biz(Decode(p.inParamFields, r).value))
  {
  }

  /**
   * Validation works on a copy: the business method receives the decoded values even where a
   * `default` rule rewrote the copy and `required` then passed on the rewritten value.
   */
  lemma DefaultNotSeenByBusiness<A>(p: ApiPoint, r: Request, biz: seq<FieldValue> -> BizResult<A>, d: string)
    requires p.json.auth == false && p.json.verb == ""
    requires |p.inParamFields| == 1 && p.inParamFields[0].typ == "string"
    requires d != ""
    requires p.inParamFields[0].validators == [Validator("default", d), Validator("required", "")]
    requires FormValue(r, ToLower(WireName(p.inParamFields[0]))) == ""
    ensures Handle(p, r, biz) == BizResponse(biz([Str("")]))
  {
    var fields := p.inParamFields;
    assert FieldFill(fields[0], r) == Ok(Str(""));
    assert Decode(fields[1..], r) == Ok([]);
    assert [Str("")] + [] == [Str("")];
    assert Decode(fields, r) == Ok([Str("")]);
    DefaultBeforeRequired(fields, 0, d, [], [Str("")]);
    assert [Validator("default", d), Validator("required", "")] + [] == fields[0].validators;
    assert RunFields(fields, 0, [Str("")]) == Resume(fields, 0, fields[0].validators, [Str("")]);
    assert RunFields(fields, 0, [Str("")]).Pass?;
  }
}
