/**
  A contract procedure: the immutable definition of one callable unit (route
  metadata, input and output schemas, examples), its validating constructor,
  and the structural recogniser that identifies a procedure by the shape of
  its fields rather than by class identity.
 */
module ContractProcedures {
  import opened Wrappers
  import opened JsValues

  /** The value of the `~type` tag every constructed procedure carries. */
  const ProcedureTypeTag := "ContractProcedure"

  /** The message of the configuration error thrown for an out-of-range success status. */
  const SuccessStatusMessage := "[ContractProcedure] The successStatus must be between 200 and 299"

  /** Route metadata; every field is optional and `None` means the key is absent. */
  datatype RouteOptions = RouteOptions(
    httpMethod: Option<string>,
    path: Option<string>,
    summary: Option<string>,
    description: Option<string>,
    deprecated: Option<bool>,
    tags: Option<seq<string>>,
    successStatus: Option<Number>)

  /** A procedure definition; schemas and examples are opaque JavaScript values. */
  datatype ContractProcedureDef = ContractProcedureDef(
    route: Option<RouteOptions>,
    inputSchema: JsValue,
    inputExample: Option<JsValue>,
    outputSchema: JsValue,
    outputExample: Option<JsValue>)

  /** A constructed procedure: its `~type` tag and its `~orpc` definition. */
  datatype ContractProcedure = ContractProcedure(typeTag: string, orpc: ContractProcedureDef)

  /** The error a construction throws. */
  datatype ConfigurationError = ConfigurationError(message: string)

  /** `def.route?.successStatus`: `None` when there is no route or the route has no success status. */
  function SuccessStatusOf(def: ContractProcedureDef): Option<Number> {
    match def.route
    case None => None
    case Some(route) => route.successStatus
  }

  /**
    The guard of the constructor: a truthy success status below 200 or above
    299. It fires exactly on a declared status that is not acceptable.
   */
  predicate RejectsSuccessStatus(def: ContractProcedureDef): (rejects: bool)
    ensures rejects <==> SuccessStatusOf(def).Some? && !AcceptableSuccessStatus(SuccessStatusOf(def).value)
  {
    match SuccessStatusOf(def)
    case None => false
    case Some(status) => Truthy(Num(status)) && (LessThan(status, 200.0) || GreaterThan(status, 299.0))
  }

  /** The 2xx (Successful) class of status codes, section 15.3 of RFC 9110, as the inclusive range 200..299. */
  predicate InSuccessfulClass(status: Number) {
    status.Finite? && 200.0 <= status.value <= 299.0
  }

  /**
    The success statuses a definition may declare: those of the 2xx class, and
    also `0` and `NaN`, which the truthiness test lets through unchecked.
   */
  predicate AcceptableSuccessStatus(status: Number) {
    InSuccessfulClass(status) || status == Finite(0.0) || status.NaN?
  }

  /** `new ContractProcedure(def)`: fails exactly on an unacceptable success status, otherwise stores `def` unchanged. */
  function NewContractProcedure(def: ContractProcedureDef): (r: Result<ContractProcedure, ConfigurationError>)
    ensures r.Success? <==> SuccessStatusOf(def).None? || AcceptableSuccessStatus(SuccessStatusOf(def).value)
    ensures r.Success? ==> r.value.typeTag == ProcedureTypeTag && r.value.orpc == def
    ensures r.Failure? ==> r.error.message == SuccessStatusMessage
  {
    if RejectsSuccessStatus(def) then
      Failure(ConfigurationError(SuccessStatusMessage))
    else
      Success(ContractProcedure(ProcedureTypeTag, def))
  }

  /** A definition with no route, or a route without a success status, always constructs. */
  lemma WithoutSuccessStatusAlwaysConstructs(def: ContractProcedureDef)
    requires def.route.None? || def.route.value.successStatus.None?
    ensures NewContractProcedure(def) == Success(ContractProcedure(ProcedureTypeTag, def))
  {
  }

  /** Both bounds are inclusive, and `0` slips through the truthiness test. */
  lemma SuccessStatusBoundaries(route: RouteOptions, def: ContractProcedureDef)
    requires def.route == Some(route)
    ensures route.successStatus == Some(Finite(200.0)) ==> NewContractProcedure(def).Success?
    ensures route.successStatus == Some(Finite(201.0)) ==> NewContractProcedure(def).Success?
    ensures route.successStatus == Some(Finite(299.0)) ==> NewContractProcedure(def).Success?
    ensures route.successStatus == Some(Finite(0.0)) ==> NewContractProcedure(def).Success?
    ensures route.successStatus == Some(Finite(150.0)) ==> NewContractProcedure(def).Failure?
    ensures route.successStatus == Some(Finite(199.0)) ==> NewContractProcedure(def).Failure?
    ensures route.successStatus == Some(Finite(300.0)) ==> NewContractProcedure(def).Failure?
  {
  }

  /** Sets `key` in `m` when `v` is present, and leaves `m` alone when it is absent. */
  function Put(m: map<string, JsValue>, key: string, v: Option<JsValue>): (r: map<string, JsValue>)
    ensures v.Some? ==> key in r && r[key] == v.value
    ensures forall k :: k in m && k != key ==> k in r && r[k] == m[k]
  {
    match v
    case None => m
    case Some(x) => m[key := x]
  }

  /** Wraps a present value. */
  function MapOption<T>(o: Option<T>, f: T -> JsValue): Option<JsValue> {
    match o
    case None => None
    case Some(x) => Some(f(x))
  }

  /** Route metadata as the JavaScript object that holds it. */
  function RouteToJs(route: RouteOptions): JsValue {
    var m0: map<string, JsValue> := map[];
    var m1 := Put(m0, "method", MapOption(route.httpMethod, s => Str(s)));
    var m2 := Put(m1, "path", MapOption(route.path, s => Str(s)));
    var m3 := Put(m2, "summary", MapOption(route.summary, s => Str(s)));
    var m4 := Put(m3, "description", MapOption(route.description, s => Str(s)));
    var m5 := Put(m4, "deprecated", MapOption(route.deprecated, b => Bool(b)));
    var m6 := Put(m5, "tags", MapOption(route.tags, (ts: seq<string>) => Arr(seq(|ts|, i requires 0 <= i < |ts| => Str(ts[i])), map[])));
    var m7 := Put(m6, "successStatus", MapOption(route.successStatus, n => Num(n)));
    Obj(m7)
  }

  /**
    A definition as the JavaScript object that holds it: the two schemas are
    always own keys holding the given schemas, and the route and the examples
    are own keys exactly when they are given.
   */
  function DefToJs(def: ContractProcedureDef): (v: JsValue)
    ensures v.Obj? && "InputSchema" in v.props && "OutputSchema" in v.props
    ensures v.props["InputSchema"] == def.inputSchema && v.props["OutputSchema"] == def.outputSchema
    ensures "route" in v.props <==> def.route.Some?
    ensures def.route.Some? ==> v.props["route"] == RouteToJs(def.route.value)
    ensures "inputExample" in v.props <==> def.inputExample.Some?
    ensures def.inputExample.Some? ==> v.props["inputExample"] == def.inputExample.value
    ensures "outputExample" in v.props <==> def.outputExample.Some?
    ensures def.outputExample.Some? ==> v.props["outputExample"] == def.outputExample.value
    ensures v.props.Keys <= {"InputSchema", "OutputSchema", "route", "inputExample", "outputExample"}
  {
    var m0 := map["InputSchema" := def.inputSchema, "OutputSchema" := def.outputSchema];
    var m1 := Put(m0, "route", MapOption(def.route, RouteToJs));
    var m2 := Put(m1, "inputExample", def.inputExample);
    var m3 := Put(m2, "outputExample", def.outputExample);
    Obj(m3)
  }

  /** A constructed procedure as the object the class creates: own fields `~type` and `~orpc`, and nothing else. */
  function ProcedureToJs(p: ContractProcedure): (v: JsValue)
    ensures v.Obj? && v.props.Keys == {"~type", "~orpc"}
    ensures v.props["~type"] == Str(p.typeTag) && v.props["~orpc"] == DefToJs(p.orpc)
  {
    Obj(map["~type" := Str(p.typeTag), "~orpc" := DefToJs(p.orpc)])
  }

  /** `isContractProcedure(item)`, structural part: the same chain of tests, in the same order. */
  predicate IsContractProcedure(item: JsValue): (recognised: bool)
    ensures recognised ==> item.Obj? || item.Arr? || item.Func?
  {
    (TypeOf(item) == "object" || TypeOf(item) == "function")
    && !item.Null?
    && HasProperty(item, "~type")
    && Get(item, "~type") == Str(ProcedureTypeTag)
    && HasProperty(item, "~orpc")
    && TypeOf(Get(item, "~orpc")) == "object"
    && !Get(item, "~orpc").Null?
    && HasProperty(Get(item, "~orpc"), "InputSchema")
    && HasProperty(Get(item, "~orpc"), "OutputSchema")
  }

  /**
    On records (objects, arrays and functions) the recogniser holds exactly when
    the own property `~type` is the procedure tag and the own property `~orpc`
    is a non-null object (a plain object or an array) holding both schema keys.
   */
  lemma {:induction false} RecognisesRecords(item: JsValue)
    requires item.Obj? || item.Arr? || item.Func?
    ensures IsContractProcedure(item) <==>
      "~type" in item.props && item.props["~type"] == Str(ProcedureTypeTag)
      && "~orpc" in item.props
      && (item.props["~orpc"].Obj? || item.props["~orpc"].Arr?)
      && "InputSchema" in item.props["~orpc"].props
      && "OutputSchema" in item.props["~orpc"].props
  {
    if item.Arr? {
      NamedKeyOfArray(item.elements, item.props, "~type");
      NamedKeyOfArray(item.elements, item.props, "~orpc");
    }
    if "~orpc" in item.props && item.props["~orpc"].Arr? {
      var orpc := item.props["~orpc"];
      NamedKeyOfArray(orpc.elements, orpc.props, "InputSchema");
      NamedKeyOfArray(orpc.elements, orpc.props, "OutputSchema");
    }
  }

  /** `null` and primitives (`undefined`, booleans, numbers, strings) are never recognised. */
  lemma RejectsNonRecords(item: JsValue)
    requires !(item.Obj? || item.Arr? || item.Func?)
    ensures !IsContractProcedure(item)
  {
  }

  /** Every successfully constructed procedure passes the structural recogniser. */
  lemma ConstructedIsRecognised(def: ContractProcedureDef)
    ensures NewContractProcedure(def).Success? ==> IsContractProcedure(ProcedureToJs(NewContractProcedure(def).value))
  {
  }
}
