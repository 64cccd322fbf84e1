/** The package-private half of the activity invocation layer: where the
    scheduling parameters live in a context and how they are validated, the
    call-site signature check, the handling of a function's results, and the
    `activityOptions` builder. */
module InternalActivity {
  import opened Wrappers
  import opened ActivityTypes
  import opened Contexts

  const ActivityEnvContextKey: string := "activityEnv"
  const ActivityOptionsContextKey: string := "activityOptions"

  /** The mutable configuration object one context node points to. Every
      context derived from that node reaches the same object. */
  class ExecuteActivityParameters {
    var activityID: Option<string>
    var activityType: ActivityType
    var taskListName: string
    var input: Payload
    var scheduleToCloseTimeoutSeconds: Int32
    var scheduleToStartTimeoutSeconds: Int32
    var startToCloseTimeoutSeconds: Int32
    var heartbeatTimeoutSeconds: Int32
    var waitForCancellation: bool

    /** The object's fields as a value. */
    function Fields(): Params
      reads this
    {
      Params(activityID, activityType, taskListName, input,
             scheduleToCloseTimeoutSeconds, scheduleToStartTimeoutSeconds,
             startToCloseTimeoutSeconds, heartbeatTimeoutSeconds, waitForCancellation)
    }

    /** `&executeActivityParameters{}`: every field holds Go's zero value. */
    constructor ()
      ensures Fields() == ZeroParams
    {
      activityID := None;
      activityType := ActivityType("");
      taskListName := "";
      input := None;
      scheduleToCloseTimeoutSeconds := 0;
      scheduleToStartTimeoutSeconds := 0;
      startToCloseTimeoutSeconds := 0;
      heartbeatTimeoutSeconds := 0;
      waitForCancellation := false;
    }
  }

  /** What a context node may hold: the parameters object, the execution
      environment, or a value some other code bound. */
  datatype ContextValue =
    | ParametersValue(params: ExecuteActivityParameters)
    | EnvironmentValue(env: ActivityEnvironment)
    | ForeignValue(v: Value)

  type ActivityContext = Context<ContextValue>

  // ---------------------------------------------------------------------------
  // The execution environment
  // ---------------------------------------------------------------------------

  /** An environment is bound under its key; otherwise `getActivityEnv`
      panics ("Not an activity context") or its type assertion does. */
  predicate EnvironmentBound(ctx: ActivityContext) {
    var v := Lookup(ctx, ActivityEnvContextKey);
    v.Some? && v.value.EnvironmentValue?
  }

  /** `env` is bound by the nearest node of `ctx` that binds the
      environment key. */
  ghost predicate NearestEnvironment(ctx: ActivityContext, env: ActivityEnvironment) {
    exists i :: 0 <= i < |Bindings(ctx)|
                && Bindings(ctx)[i] == Binding(ActivityEnvContextKey, EnvironmentValue(env))
                && forall j :: 0 <= j < i ==> Bindings(ctx)[j].key != ActivityEnvContextKey
  }

  /** A context has at most one nearest environment. */
  lemma NearestEnvironmentUnique(ctx: ActivityContext, e1: ActivityEnvironment, e2: ActivityEnvironment)
    requires NearestEnvironment(ctx, e1) && NearestEnvironment(ctx, e2)
    ensures e1 == e2
  {
    var i1 :| 0 <= i1 < |Bindings(ctx)|
              && Bindings(ctx)[i1] == Binding(ActivityEnvContextKey, EnvironmentValue(e1))
              && forall j :: 0 <= j < i1 ==> Bindings(ctx)[j].key != ActivityEnvContextKey;
    var i2 :| 0 <= i2 < |Bindings(ctx)|
              && Bindings(ctx)[i2] == Binding(ActivityEnvContextKey, EnvironmentValue(e2))
              && forall j :: 0 <= j < i2 ==> Bindings(ctx)[j].key != ActivityEnvContextKey;
    if i1 != i2 {
      assert false;
    }
  }

  /** The environment of the nearest binding of the environment key. */
  function GetActivityEnv(ctx: ActivityContext): (env: ActivityEnvironment)
    requires EnvironmentBound(ctx)
    ensures NearestEnvironment(ctx, env)
  {
    Lookup(ctx, ActivityEnvContextKey).value.env
  }

  // ---------------------------------------------------------------------------
  // The parameters object in a context, and its validation
  // ---------------------------------------------------------------------------

  /** Whatever is bound under the options key is a parameters object, so
      the type assertion in `getActivityOptions` cannot panic. */
  predicate ParametersWellTyped(ctx: ActivityContext) {
    var v := Lookup(ctx, ActivityOptionsContextKey);
    v.None? || v.value.ParametersValue?
  }

  /** The parameters object of the nearest binding of the options key, or
      None (Go's nil) when no node binds it. */
  function GetActivityOptions(ctx: ActivityContext): (r: Option<ExecuteActivityParameters>)
    requires ParametersWellTyped(ctx)
    ensures r.None? <==> forall i :: 0 <= i < |Bindings(ctx)| ==> Bindings(ctx)[i].key != ActivityOptionsContextKey
    ensures r.Some? ==> exists i :: 0 <= i < |Bindings(ctx)|
                                    && Bindings(ctx)[i] == Binding(ActivityOptionsContextKey, ParametersValue(r.value))
                                    && forall j :: 0 <= j < i ==> Bindings(ctx)[j].key != ActivityOptionsContextKey
  {
    var v := Lookup(ctx, ActivityOptionsContextKey);
    if v.None? then None else Some(v.value.params)
  }

  /** The objects an option setter applied to `ctx` may change: the
      reachable parameters object, if there is one. */
  function ParametersFootprint(ctx: ActivityContext): set<object> {
    var v := Lookup(ctx, ActivityOptionsContextKey);
    if v.Some? && v.value.ParametersValue? then {v.value.params} else {}
  }

  /** The fields a setter starts from: those of the reachable object, or
      the zero values of the object it is about to create. */
  function FieldsOrZero(ctx: ActivityContext): Params
    requires ParametersWellTyped(ctx)
    reads ParametersFootprint(ctx)
  {
    match GetActivityOptions(ctx)
    case None => ZeroParams
    case Some(p) => p.Fields()
  }

  /** The three timeouts the service insists on are all positive. */
  predicate Schedulable(p: Params) {
    p.scheduleToStartTimeoutSeconds > 0 && p.scheduleToCloseTimeoutSeconds > 0 && p.startToCloseTimeoutSeconds > 0
  }

  /** The validation done just before an activity is scheduled. */
  function GetValidatedActivityOptions(ctx: ActivityContext): (r: Result<ExecuteActivityParameters, Error>)
    requires ParametersWellTyped(ctx)
    reads ParametersFootprint(ctx)
    ensures r == Failure(ActivityParamsBadRequest) <==> GetActivityOptions(ctx).None?
    ensures r.Success? <==> GetActivityOptions(ctx).Some? && Schedulable(GetActivityOptions(ctx).value.Fields())
    ensures r.Success? ==> r.value == GetActivityOptions(ctx).value
    ensures r == Failure(MissingScheduleToStartTimeout) <==>
              GetActivityOptions(ctx).Some? && GetActivityOptions(ctx).value.scheduleToStartTimeoutSeconds <= 0
    ensures r == Failure(MissingScheduleToCloseTimeout) <==>
              && GetActivityOptions(ctx).Some?
              && GetActivityOptions(ctx).value.scheduleToStartTimeoutSeconds > 0
              && GetActivityOptions(ctx).value.scheduleToCloseTimeoutSeconds <= 0
    ensures r == Failure(MissingStartToCloseTimeout) <==>
              && GetActivityOptions(ctx).Some?
              && GetActivityOptions(ctx).value.scheduleToStartTimeoutSeconds > 0
              && GetActivityOptions(ctx).value.scheduleToCloseTimeoutSeconds > 0
              && GetActivityOptions(ctx).value.startToCloseTimeoutSeconds <= 0
  {
    match GetActivityOptions(ctx)
    case None => Failure(ActivityParamsBadRequest)
    case Some(p) =>
      if p.scheduleToStartTimeoutSeconds <= 0 then Failure(MissingScheduleToStartTimeout)
      else if p.scheduleToCloseTimeoutSeconds <= 0 then Failure(MissingScheduleToCloseTimeout)
      else if p.startToCloseTimeoutSeconds <= 0 then Failure(MissingStartToCloseTimeout)
      else Success(p)
  }

  /** The task list and the heartbeat timeout play no part in validation:
      two contexts whose objects agree on the three scheduling timeouts get
      the same verdict. */
  lemma ValidationIgnoresUncheckedFields(c1: ActivityContext, c2: ActivityContext)
    requires ParametersWellTyped(c1) && ParametersWellTyped(c2)
    requires GetActivityOptions(c1).Some? && GetActivityOptions(c2).Some?
    requires var p1, p2 := GetActivityOptions(c1).value, GetActivityOptions(c2).value;
             && p1.scheduleToStartTimeoutSeconds == p2.scheduleToStartTimeoutSeconds
             && p1.scheduleToCloseTimeoutSeconds == p2.scheduleToCloseTimeoutSeconds
             && p1.startToCloseTimeoutSeconds == p2.startToCloseTimeoutSeconds
    ensures GetValidatedActivityOptions(c1).Success? == GetValidatedActivityOptions(c2).Success?
    ensures GetValidatedActivityOptions(c1).Failure? ==> GetValidatedActivityOptions(c1) == GetValidatedActivityOptions(c2)
  {
  }

  /** `setActivityParametersIfNotExist`: reuse the reachable parameters
      object, or bind a fresh zero-valued one in a new child context. */
  method SetActivityParametersIfNotExist(ctx: ActivityContext) returns (ctx1: ActivityContext)
    requires ParametersWellTyped(ctx)
    ensures ParametersAttached(ctx, ctx1)
    ensures GetActivityOptions(ctx1).value.Fields() == old(FieldsOrZero(ctx))
  {
    if GetActivityOptions(ctx).None? {
      var p := new ExecuteActivityParameters();
      ctx1 := WithValue(ctx, ActivityOptionsContextKey, ParametersValue(p));
    } else {
      ctx1 := ctx;
    }
  }

  /** After `setActivityParametersIfNotExist(ctx)`: `ctx1` reaches a
      parameters object; it is `ctx` itself when `ctx` already reached one,
      and otherwise a child of `ctx` binding an object allocated just now. */
  twostate predicate ParametersAttached(ctx: ActivityContext, new ctx1: ActivityContext)
    requires ParametersWellTyped(ctx)
  {
    && ParametersWellTyped(ctx1)
    && GetActivityOptions(ctx1).Some?
    && (GetActivityOptions(ctx).Some? ==> ctx1 == ctx)
    && (GetActivityOptions(ctx).None? ==>
          && ctx1 == WithValue(ctx, ActivityOptionsContextKey, ParametersValue(GetActivityOptions(ctx1).value))
          && fresh(GetActivityOptions(ctx1).value))
  }

  // ---------------------------------------------------------------------------
  // The call-site signature check
  // ---------------------------------------------------------------------------

  /** `isActivityContext`: the type implements `context.Context`. */
  predicate IsActivityContext(ts: TypeSystem, t: TypeTag) {
    ts.implementsContext(t)
  }

  /** How many leading declared parameters the check skips: one when the
      first is a context of the requested flavour, none otherwise. */
  function ContextArgCount(ts: TypeSystem, fnType: TypeDescriptor, isWorkflow: bool): (n: nat)
    ensures n <= |fnType.ins|
  {
    if |fnType.ins| > 0 && (if isWorkflow then ts.isWorkflowContext(fnType.ins[0]) else IsActivityContext(ts, fnType.ins[0]))
    then 1 else 0
  }

  /** Every argument has a dynamic type; an untyped nil is outside the model. */
  predicate AllTyped(args: seq<Value>) {
    forall i :: 0 <= i < |args| ==> args[i].Typed?
  }

  /** The first position where an argument's type is not assignable to the
      parameter type beside it, or None when every one is. */
  function FirstUnassignable(ts: TypeSystem, args: seq<Value>, params: seq<TypeTag>): (r: Option<nat>)
    requires AllTyped(args) && |args| == |params|
    ensures r.None? <==> forall i :: 0 <= i < |params| ==> ts.assignableTo(args[i].typ, params[i])
    ensures r.Some? ==> && r.value < |params|
                        && !ts.assignableTo(args[r.value].typ, params[r.value])
                        && forall j :: 0 <= j < r.value ==> ts.assignableTo(args[j].typ, params[j])
    decreases |params|
  {
    if |params| == 0 then None
    else if !ts.assignableTo(args[0].typ, params[0]) then Some(0)
    else match FirstUnassignable(ts, args[1..], params[1..])
      case None => None
      case Some(k) => Some(k + 1)
  }

  /** A position where assignability fails, with none failing before it,
      is the one FirstUnassignable reports. */
  lemma FirstUnassignableAt(ts: TypeSystem, args: seq<Value>, params: seq<TypeTag>, i: nat)
    requires AllTyped(args) && |args| == |params| && i < |params|
    requires forall j :: 0 <= j < i ==> ts.assignableTo(args[j].typ, params[j])
    requires !ts.assignableTo(args[i].typ, params[i])
    ensures FirstUnassignable(ts, args, params) == Some(i)
  {
  }

  /** What `validateFunctionArgs` answers: None (Go's nil error) when the
      call is acceptable, otherwise the first problem found. Which calls it
      accepts and which argument it blames are CheckAcceptsExactly, CheckBlamesExactly and CheckBlamesFirst. */
  function CheckFunctionArgs(ts: TypeSystem, f: Callable, args: seq<Value>, isWorkflow: bool): (r: Option<Error>)
    requires AllTyped(args)
    ensures f.typ.kind != Func ==> r == Some(NotAFunction(f))
    ensures (r.Some? && r.value.ArgCountMismatch?) <==>
              f.typ.kind == Func && |f.typ.ins| - ContextArgCount(ts, f.typ, isWorkflow) != |args|
    ensures r.Some? && r.value.ArgCountMismatch? ==>
              && r.value.fnName == f.name
              && r.value.expected == |f.typ.ins| - ContextArgCount(ts, f.typ, isWorkflow) && r.value.found == |args|
  {
    if f.typ.kind != Func then Some(NotAFunction(f))
    else
      var skip := ContextArgCount(ts, f.typ, isWorkflow);
      if |f.typ.ins| - skip != |args| then Some(ArgCountMismatch(f.name, |f.typ.ins| - skip, |args|))
      else
        var declared := f.typ.ins[skip..];
        match FirstUnassignable(ts, args, declared)
        case None => None
        case Some(k) => Some(ArgNotAssignable(skip + k + 1, args[k].typ, declared[k]))
  }

  /** The check accepts exactly the calls to a function whose argument count,
      after the skipped context parameter, is exact and whose every argument
      is assignable to the declared parameter beside it. */
  lemma CheckAcceptsExactly(ts: TypeSystem, f: Callable, args: seq<Value>, isWorkflow: bool)
    requires AllTyped(args)
    ensures CheckFunctionArgs(ts, f, args, isWorkflow).None? <==>
              && f.typ.kind == Func
              && |f.typ.ins| - ContextArgCount(ts, f.typ, isWorkflow) == |args|
              && forall i :: 0 <= i < |args| ==> ts.assignableTo(args[i].typ, f.typ.ins[ContextArgCount(ts, f.typ, isWorkflow) + i])
  {
  }

  /** An assignability error is reported exactly when the counts agree and
      some argument is not assignable. */
  lemma CheckBlamesExactly(ts: TypeSystem, f: Callable, args: seq<Value>, isWorkflow: bool)
    requires AllTyped(args)
    ensures (CheckFunctionArgs(ts, f, args, isWorkflow).Some? && CheckFunctionArgs(ts, f, args, isWorkflow).value.ArgNotAssignable?) <==>
              && f.typ.kind == Func
              && |f.typ.ins| - ContextArgCount(ts, f.typ, isWorkflow) == |args|
              && exists i :: 0 <= i < |args| && !ts.assignableTo(args[i].typ, f.typ.ins[ContextArgCount(ts, f.typ, isWorkflow) + i])
  {
  }

  /** The argument an assignability error blames is the first one that is
      not assignable, named by its 1-based declared position and both
      types. */
  lemma CheckBlamesFirst(ts: TypeSystem, f: Callable, args: seq<Value>, isWorkflow: bool)
    requires AllTyped(args)
    requires CheckFunctionArgs(ts, f, args, isWorkflow).Some? && CheckFunctionArgs(ts, f, args, isWorkflow).value.ArgNotAssignable?
    ensures var e, skip := CheckFunctionArgs(ts, f, args, isWorkflow).value, ContextArgCount(ts, f.typ, isWorkflow);
            var i := e.position - skip - 1;
            && 0 <= i < |args|
            && e.from == args[i].typ && e.to == f.typ.ins[skip + i]
            && !ts.assignableTo(args[i].typ, f.typ.ins[skip + i])
            && forall j :: 0 <= j < i ==> ts.assignableTo(args[j].typ, f.typ.ins[skip + j])
  {
  }

  /** The check's verdict when the counts agree and argument `i` is the
      first one that is not assignable. */
  lemma CheckRejectsAt(ts: TypeSystem, f: Callable, args: seq<Value>, isWorkflow: bool, skip: nat, i: nat)
    requires AllTyped(args) && f.typ.kind == Func && skip == ContextArgCount(ts, f.typ, isWorkflow)
    requires |f.typ.ins| - skip == |args| && i < |args|
    requires forall j :: 0 <= j < i ==> ts.assignableTo(args[j].typ, f.typ.ins[skip + j])
    requires !ts.assignableTo(args[i].typ, f.typ.ins[skip + i])
    ensures CheckFunctionArgs(ts, f, args, isWorkflow) == Some(ArgNotAssignable(skip + i + 1, args[i].typ, f.typ.ins[skip + i]))
  {
    FirstUnassignableAt(ts, args, f.typ.ins[skip..], i);
  }

  /** The check accepts a call whose counts agree and whose every argument
      is assignable. */
  lemma CheckAccepts(ts: TypeSystem, f: Callable, args: seq<Value>, isWorkflow: bool, skip: nat)
    requires AllTyped(args) && f.typ.kind == Func && skip == ContextArgCount(ts, f.typ, isWorkflow)
    requires |f.typ.ins| - skip == |args|
    requires forall j :: 0 <= j < |args| ==> ts.assignableTo(args[j].typ, f.typ.ins[skip + j])
    ensures CheckFunctionArgs(ts, f, args, isWorkflow) == None
  {
  }

  /** `validateFunctionArgs`: skip a leading context parameter, compare the
      counts, then walk the declared parameters and the arguments in step. */
  method ValidateFunctionArgs(ts: TypeSystem, f: Callable, args: seq<Value>, isWorkflow: bool) returns (err: Option<Error>)
    requires AllTyped(args)
    ensures err == CheckFunctionArgs(ts, f, args, isWorkflow)
  {
    var fType := f.typ;
    if fType.kind != Func {
      return Some(NotAFunction(f));
    }
    var fnName := f.name;
    var numIn := |fType.ins|;

    var fnArgIndex := 0;
    if numIn > 0 {
      if isWorkflow && ts.isWorkflowContext(fType.ins[0]) {
        fnArgIndex := fnArgIndex + 1;
      }
      if !isWorkflow && IsActivityContext(ts, fType.ins[0]) {
        fnArgIndex := fnArgIndex + 1;
      }
    }
    ghost var skip := fnArgIndex;
    assert skip == ContextArgCount(ts, fType, isWorkflow);

    if numIn - fnArgIndex != |args| {
      return Some(ArgCountMismatch(fnName, numIn - fnArgIndex, |args|));
    }

    var i := 0;
    while fnArgIndex < numIn
      invariant skip <= fnArgIndex <= numIn
      invariant i == fnArgIndex - skip
      invariant forall j :: 0 <= j < i ==> ts.assignableTo(args[j].typ, fType.ins[skip + j])
    {
      var fnArgType := fType.ins[fnArgIndex];
      var argType := args[i].typ;
      if !ts.assignableTo(argType, fnArgType) {
        CheckRejectsAt(ts, f, args, isWorkflow, skip, i);
        return Some(ArgNotAssignable(fnArgIndex + 1, argType, fnArgType));
      }
      fnArgIndex, i := fnArgIndex + 1, i + 1;
    }
    CheckAccepts(ts, f, args, isWorkflow, skip);
    return None;
  }

  /** Adding or removing one argument to an accepted call makes the check
      fail: no argument is optional and none is variadic. */
  lemma ArityIsExact(ts: TypeSystem, f: Callable, args: seq<Value>, extra: Value, isWorkflow: bool)
    requires AllTyped(args) && extra.Typed?
    requires CheckFunctionArgs(ts, f, args, isWorkflow).None?
    ensures CheckFunctionArgs(ts, f, args + [extra], isWorkflow).Some?
    ensures |args| > 0 ==> CheckFunctionArgs(ts, f, args[..|args| - 1], isWorkflow).Some?
  {
  }

  /** What `getValidatedActivityFunction` hands to the scheduler. */
  datatype ValidatedActivity = ValidatedActivity(activityType: ActivityType, input: Bytes)

  /** `getValidatedActivityFunction`: a string names the activity as is; a
      function is checked against the arguments first; anything else is
      refused. The arguments are encoded only once the name is settled. */
  function GetValidatedActivityFunction(ts: TypeSystem, host: HostEnvironment, f: Callable, args: seq<Value>)
    : (r: Result<ValidatedActivity, Error>)
    requires f.typ.kind == Func ==> AllTyped(args)
    ensures f.typ.kind == Other ==> r == Failure(InvalidActivityParameter(f))
    ensures f.typ.kind == Func && CheckFunctionArgs(ts, f, args, false).Some? ==>
              r == Failure(CheckFunctionArgs(ts, f, args, false).value)
    ensures r.Success? <==>
              && (f.typ.kind == String || (f.typ.kind == Func && CheckFunctionArgs(ts, f, args, false).None?))
              && host.encodeArgs(args).Success?
    ensures r.Success? ==> r.value == ValidatedActivity(ActivityType(f.name), host.encodeArgs(args).value)
    ensures (f.typ.kind == String || (f.typ.kind == Func && CheckFunctionArgs(ts, f, args, false).None?))
            && host.encodeArgs(args).Failure? ==>
              r == Failure(SerializationError(host.encodeArgs(args).error))
  {
    var nameCheck: Option<Error> :=
      match f.typ.kind
      case String => None
      case Func => CheckFunctionArgs(ts, f, args, false)
      case Other => Some(InvalidActivityParameter(f));
    if nameCheck.Some? then Failure(nameCheck.value)
    else
      match host.encodeArgs(args)
      case Failure(message) => Failure(SerializationError(message))
      case Success(input) => Success(ValidatedActivity(ActivityType(f.name), input))
  }

  // ---------------------------------------------------------------------------
  // Results
  // ---------------------------------------------------------------------------

  /** `validateFunctionResults`: a function's signature is checked (a name
      cannot be), then a non-nil result is encoded. */
  function ValidateFunctionResults(host: HostEnvironment, f: Callable, result: Value): (r: Result<Payload, Error>)
    ensures f.typ.kind == Other ==> r == Failure(InvalidActivityParameter(f))
    ensures f.typ.kind == Func && host.validateFnFormat(f.typ).Some? ==>
              r == Failure(SignatureFormatError(host.validateFnFormat(f.typ).value))
    ensures r.Success? ==> (r.value.None? <==> result.Nil?)
    ensures r.Success? && r.value.Some? ==> host.encodeArg(result) == Success(r.value.value)
    ensures result.Nil? && (f.typ.kind == String || (f.typ.kind == Func && host.validateFnFormat(f.typ).None?)) ==>
              r == Success(None)
    ensures result.Typed? && (f.typ.kind == String || (f.typ.kind == Func && host.validateFnFormat(f.typ).None?)) ==>
              r == (match host.encodeArg(result)
                    case Success(data) => Success(Some(data))
                    case Failure(message) => Failure(SerializationError(message)))
  {
    var formatError: Option<Error> :=
      match f.typ.kind
      case String => None
      case Func =>
        (match host.validateFnFormat(f.typ)
         case None => None
         case Some(message) => Some(SignatureFormatError(message)))
      case Other => Some(InvalidActivityParameter(f));
    if formatError.Some? then Failure(formatError.value)
    else if result.Nil? then Success(None)
    else
      match host.encodeArg(result)
      case Failure(message) => Failure(SerializationError(message))
      case Success(data) => Success(Some(data))
  }

  /** The Go pair `([]byte, error)` an activity invocation produces. */
  datatype CallOutcome = CallOutcome(result: Payload, err: Option<Error>)

  /** `validateFunctionAndGetResults`: a function returns either `error` or
      `(result, error)`; the result is encoded, and a non-nil error value is
      passed on as the activity's failure. */
  function ValidateFunctionAndGetResults(ts: TypeSystem, host: HostEnvironment, f: Callable, values: seq<Value>)
    : (r: CallOutcome)
    ensures (|values| < 1 || |values| > 2) <==> r == CallOutcome(None, Some(BadResultCount(f.name, |values|)))
    ensures r.err.None? <==>
              && 1 <= |values| <= 2 && values[|values| - 1].Nil?
              && (|values| == 2 ==> host.encodeArg(values[0]).Success?)
    ensures r.err.None? ==> r.result == (if |values| == 2 then Some(host.encodeArg(values[0]).value) else None)
    ensures r.result.Some? ==> |values| == 2 && host.encodeArg(values[0]) == Success(r.result.value)
    ensures r.err.Some? && r.err.value.ActivityFailed? ==>
              && 1 <= |values| <= 2
              && r.err.value.v == values[|values| - 1]
              && values[|values| - 1].Typed? && ts.implementsError(values[|values| - 1].typ)
    ensures |values| == 2 && host.encodeArg(values[0]).Failure? ==>
              r == CallOutcome(None, Some(SerializationError(host.encodeArg(values[0]).error)))
    ensures 1 <= |values| <= 2 && values[|values| - 1].Typed? && (|values| == 2 ==> host.encodeArg(values[0]).Success?) ==>
              var last := values[|values| - 1];
              r == if ts.implementsError(last.typ)
                   then CallOutcome(if |values| == 2 then Some(host.encodeArg(values[0]).value) else None, Some(ActivityFailed(last)))
                   else CallOutcome(None, Some(ErrorResultNotError(last)))
  {
    var resultSize := |values|;
    if resultSize < 1 || resultSize > 2 then CallOutcome(None, Some(BadResultCount(f.name, resultSize)))
    else
      var encoded: Result<Payload, Error> :=
        if resultSize > 1 then
          match host.encodeArg(values[0])
          case Failure(message) => Failure(SerializationError(message))
          case Success(data) => Success(Some(data))
        else Success(None);
      if encoded.Failure? then CallOutcome(None, Some(encoded.error))
      else
        var errValue := values[resultSize - 1];
        if errValue.Nil? then CallOutcome(encoded.value, None)
        else if !ts.implementsError(errValue.typ) then CallOutcome(None, Some(ErrorResultNotError(errValue)))
        else CallOutcome(encoded.value, Some(ActivityFailed(errValue)))
  }

  /** What happens to the caller's `to` target when a result is decoded. */
  datatype DecodeOutcome = NotDecoded | Decoded(v: Value) | DecodeFailed(e: Error)

  function FromDecode(d: Result<Value, string>): DecodeOutcome {
    match d
    case Success(v) => Decoded(v)
    case Failure(message) => DecodeFailed(SerializationError(message))
  }

  /** `deSerializeFnResultFromFnType`: only a function with exactly two
      results and a non-nil payload has anything to decode. */
  function DeserializeFnResultFromFnType(host: HostEnvironment, fnType: TypeDescriptor, result: Payload, to: TypeTag)
    : (r: DecodeOutcome)
    ensures fnType.kind != Func ==> r == DecodeFailed(ExpectingFunctionType(fnType))
    ensures r.NotDecoded? <==> fnType.kind == Func && (fnType.numOut != 2 || result.None?)
    ensures r.Decoded? ==> fnType.kind == Func && fnType.numOut == 2 && host.decodeArg(result, to) == Success(r.v)
    ensures fnType.kind == Func && r.DecodeFailed? ==>
              fnType.numOut == 2 && result.Some? && host.decodeArg(result, to).Failure?
              && r.e == SerializationError(host.decodeArg(result, to).error)
  {
    if fnType.kind != Func then DecodeFailed(ExpectingFunctionType(fnType))
    else if fnType.numOut <= 1 then NotDecoded
    else if fnType.numOut == 2 then
      if result.None? then NotDecoded
      else FromDecode(host.decodeArg(result, to))
    else NotDecoded
  }

  /** `deSerializeFunctionResult`: a function value, or the function a
      registered name stands for, decides through its result count; for an
      unregistered name, or anything else, the payload is decoded as is. */
  function DeserializeFunctionResult(host: HostEnvironment, f: Callable, result: Payload, to: TypeTag): (r: DecodeOutcome)
    ensures f.typ.kind == Func ==> r == DeserializeFnResultFromFnType(host, f.typ, result, to)
    ensures f.typ.kind == String && host.getActivityFn(f.name).Some? ==>
              r == DeserializeFnResultFromFnType(host, host.getActivityFn(f.name).value, result, to)
    ensures (f.typ.kind == Other || (f.typ.kind == String && host.getActivityFn(f.name).None?)) ==>
              r == FromDecode(host.decodeArg(result, to)) && !r.NotDecoded?
  {
    match f.typ.kind
    case Func => DeserializeFnResultFromFnType(host, f.typ, result, to)
    case String =>
      (match host.getActivityFn(f.name)
       case Some(registered) => DeserializeFnResultFromFnType(host, registered, result, to)
       case None => FromDecode(host.decodeArg(result, to)))
    case Other => FromDecode(host.decodeArg(result, to))
  }

  /** The result a two-result function returns with a nil error survives
      the trip through the payload, given a codec that round-trips it; a
      one-result function leaves nothing to decode. */
  lemma ResultRoundTrip(ts: TypeSystem, host: HostEnvironment, f: Callable, values: seq<Value>, to: TypeTag)
    requires f.typ.kind == Func && f.typ.numOut == |values|
    requires 1 <= |values| <= 2 && values[|values| - 1].Nil?
    requires |values| == 2 ==> host.encodeArg(values[0]).Success?
    requires |values| == 2 ==> host.decodeArg(Some(host.encodeArg(values[0]).value), to) == Success(values[0])
    ensures var out := ValidateFunctionAndGetResults(ts, host, f, values);
            && out.err.None?
            && DeserializeFunctionResult(host, f, out.result, to) == (if |values| == 2 then Decoded(values[0]) else NotDecoded)
  {
  }

  // ---------------------------------------------------------------------------
  // The activityOptions builder
  // ---------------------------------------------------------------------------

  /** `activityOptions`: what the caller set explicitly. Every setter fills
      one field and hands back the same builder, so calls chain. */
  class ActivityOptions {
    var activityID: Option<string>
    var taskListName: Option<string>
    var scheduleToCloseTimeoutSeconds: Option<Int32>
    var scheduleToStartTimeoutSeconds: Option<Int32>
    var startToCloseTimeoutSeconds: Option<Int32>
    var heartbeatTimeoutSeconds: Option<Int32>
    var waitForCancellation: Option<bool>

    function Fields(): Options
      reads this
    {
      Options(activityID, taskListName, scheduleToCloseTimeoutSeconds, scheduleToStartTimeoutSeconds,
              startToCloseTimeoutSeconds, heartbeatTimeoutSeconds, waitForCancellation)
    }

    /** `&activityOptions{}`: nothing set yet. */
    constructor ()
      ensures Fields() == NoOptions
    {
      activityID, taskListName := None, None;
      scheduleToCloseTimeoutSeconds, scheduleToStartTimeoutSeconds := None, None;
      startToCloseTimeoutSeconds, heartbeatTimeoutSeconds := None, None;
      waitForCancellation := None;
    }

    method WithTaskList(name: string) returns (r: ActivityOptions)
      modifies this
      ensures r == this && Fields() == old(Fields()).(taskListName := Some(name))
    {
      taskListName := Some(name);
      r := this;
    }

    method WithScheduleToCloseTimeout(d: Duration) returns (r: ActivityOptions)
      requires SecondsFitInt32(d)
      modifies this
      ensures r == this && Fields() == old(Fields()).(scheduleToCloseTimeoutSeconds := Some(Int32Seconds(d)))
    {
      scheduleToCloseTimeoutSeconds := Some(Int32Seconds(d));
      r := this;
    }

    method WithScheduleToStartTimeout(d: Duration) returns (r: ActivityOptions)
      requires SecondsFitInt32(d)
      modifies this
      ensures r == this && Fields() == old(Fields()).(scheduleToStartTimeoutSeconds := Some(Int32Seconds(d)))
    {
      scheduleToStartTimeoutSeconds := Some(Int32Seconds(d));
      r := this;
    }

    method WithStartToCloseTimeout(d: Duration) returns (r: ActivityOptions)
      requires SecondsFitInt32(d)
      modifies this
      ensures r == this && Fields() == old(Fields()).(startToCloseTimeoutSeconds := Some(Int32Seconds(d)))
    {
      startToCloseTimeoutSeconds := Some(Int32Seconds(d));
      r := this;
    }

    method WithHeartbeatTimeout(d: Duration) returns (r: ActivityOptions)
      requires SecondsFitInt32(d)
      modifies this
      ensures r == this && Fields() == old(Fields()).(heartbeatTimeoutSeconds := Some(Int32Seconds(d)))
    {
      heartbeatTimeoutSeconds := Some(Int32Seconds(d));
      r := this;
    }

    method WithWaitForCancellation(wait: bool) returns (r: ActivityOptions)
      modifies this
      ensures r == this && Fields() == old(Fields()).(waitForCancellation := Some(wait))
    {
      waitForCancellation := Some(wait);
      r := this;
    }

    method WithActivityID(activityID: string) returns (r: ActivityOptions)
      modifies this
      ensures r == this && Fields() == old(Fields()).(activityID := Some(activityID))
    {
      this.activityID := Some(activityID);
      r := this;
    }
  }
}
