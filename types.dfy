/** The values that cross the activity invocation layer: identities, the
    fully resolved scheduling parameters, the execution environment, and the
    descriptors that stand in for Go's run-time reflection. */
module ActivityTypes {
  import opened Wrappers

  type byte = bv8
  type Bytes = seq<byte>

  /** A Go `[]byte` that may be nil; None is the nil slice. */
  type Payload = Option<Bytes>

  const MinInt32: int := -0x8000_0000
  const MaxInt32: int := 0x7fff_ffff
  const MinInt64: int := -0x8000_0000_0000_0000
  const MaxInt64: int := 0x7fff_ffff_ffff_ffff

  type Int32 = x: int | MinInt32 <= x <= MaxInt32

  /** Go's `time.Duration`: a signed 64-bit count of nanoseconds. */
  type Duration = d: int | MinInt64 <= d <= MaxInt64

  const NanosPerSecond: int := 1_000_000_000

  /** Whole seconds in `d`, truncated toward zero, as Go's conversion of
      `d.Seconds()` to an integer does. */
  function TruncatedSeconds(d: Duration): (s: int)
    ensures 0 <= d ==> 0 <= s && s * NanosPerSecond <= d < (s + 1) * NanosPerSecond
    ensures d < 0 ==> s <= 0 && (s - 1) * NanosPerSecond < d <= s * NanosPerSecond
    ensures s == 0 <==> -NanosPerSecond < d < NanosPerSecond
  {
    var n: int := d;
    if 0 <= n then n / NanosPerSecond else -((-n) / NanosPerSecond)
  }

  /** The setters store `int32(d.Seconds())`; the model only admits
      durations whose whole seconds fit in an int32. */
  predicate SecondsFitInt32(d: Duration) {
    MinInt32 <= TruncatedSeconds(d) <= MaxInt32
  }

  function Int32Seconds(d: Duration): (s: Int32)
    requires SecondsFitInt32(d)
  {
    TruncatedSeconds(d)
  }

  datatype ActivityType = ActivityType(name: string)

  datatype WorkflowExecution = WorkflowExecution(id: string, runID: string)

  /** What running activity code may learn about itself. */
  datatype ActivityInfo = ActivityInfo(
    taskToken: Bytes,
    workflowExecution: WorkflowExecution,
    activityID: string,
    activityType: ActivityType)

  /** The name of a Go type, as reflection would report it. */
  type TypeTag = string

  /** A Go value as the layer sees it: nil, or a value of some dynamic type.
      Its content is opaque here; only the codec interprets it. */
  datatype Value = Nil | Typed(typ: TypeTag, content: string)

  /** The kinds of `reflect.Kind` the layer distinguishes. */
  datatype Kind = Func | String | Other

  /** What reflection tells about a type: its kind and, for a function type,
      its declared parameter types (`In(i)`) and its number of results
      (`NumOut()`). */
  datatype TypeDescriptor = TypeDescriptor(kind: Kind, ins: seq<TypeTag>, numOut: nat)

  /** The `f interface{}` that names an activity: a function value, a string
      holding an activity name, or anything else. `name` is the string's
      contents for a String and the function's registered name (what
      `getFunctionName` reports) for a Func. */
  datatype Callable = Callable(typ: TypeDescriptor, name: string)

  /** The relations between types that reflection decides. */
  datatype TypeSystem = TypeSystem(
    assignableTo: (TypeTag, TypeTag) -> bool,
    implementsContext: TypeTag -> bool,
    isWorkflowContext: TypeTag -> bool,
    implementsError: TypeTag -> bool)

  /** The errors the layer reports. */
  datatype Error =
    | ActivityParamsBadRequest
    | MissingScheduleToStartTimeout
    | MissingScheduleToCloseTimeout
    | MissingStartToCloseTimeout
    | NotAFunction(f: Callable)
    | ArgCountMismatch(fnName: string, expected: int, found: nat)
    | ArgNotAssignable(position: nat, from: TypeTag, to: TypeTag)
    | InvalidActivityParameter(f: Callable)
    | BadResultCount(fnName: string, count: nat)
    | ErrorResultNotError(v: Value)
    | ExpectingFunctionType(typ: TypeDescriptor)
    | SerializationError(message: string)
    | SignatureFormatError(message: string)
    | ActivityFailed(v: Value)

  /** The process-wide host environment, whose code is not part of this
      model: the argument codec, the activity registry and the registration
      time signature check, each taken as an uninterpreted function. Their
      errors are messages; the layer passes them on as SerializationError
      and SignatureFormatError. */
  datatype HostEnvironment = HostEnvironment(
    encodeArgs: seq<Value> -> Result<Bytes, string>,
    encodeArg: Value -> Result<Bytes, string>,
    decodeArg: (Payload, TypeTag) -> Result<Value, string>,
    getActivityFn: string -> Option<TypeDescriptor>,
    validateFnFormat: TypeDescriptor -> Option<string>)

  /** The capability that carries heartbeats to the service; it answers
      with an error or with nothing. */
  datatype ServiceInvoker = ServiceInvoker(heartbeat: Bytes -> Option<string>)

  /** An opaque handle on a structured logger. */
  datatype Logger = Logger(name: string)

  /** The read-only identity capsule bound into one activity execution. */
  datatype ActivityEnvironment = ActivityEnvironment(
    taskToken: Bytes,
    workflowExecution: WorkflowExecution,
    activityID: string,
    activityType: ActivityType,
    serviceInvoker: ServiceInvoker,
    logger: Logger)

  /** The parts of the service's poll response the layer reads; a field
      that Go may leave nil is an Option. */
  datatype WireActivityType = WireActivityType(name: Option<string>)
  datatype WireWorkflowExecution = WireWorkflowExecution(workflowId: Option<string>, runId: Option<string>)
  datatype PollForActivityTaskResponse = PollForActivityTaskResponse(
    taskToken: Bytes,
    activityId: Option<string>,
    activityType: Option<WireActivityType>,
    workflowExecution: Option<WireWorkflowExecution>)

  /** Every field the binding dereferences is present. */
  predicate TaskComplete(task: PollForActivityTaskResponse) {
    && task.activityId.Some?
    && task.activityType.Some? && task.activityType.value.name.Some?
    && task.workflowExecution.Some?
    && task.workflowExecution.value.workflowId.Some?
    && task.workflowExecution.value.runId.Some?
  }

  /** The fields of an `executeActivityParameters` object, as a value. */
  datatype Params = Params(
    activityID: Option<string>,
    activityType: ActivityType,
    taskListName: string,
    input: Payload,
    scheduleToCloseTimeoutSeconds: Int32,
    scheduleToStartTimeoutSeconds: Int32,
    startToCloseTimeoutSeconds: Int32,
    heartbeatTimeoutSeconds: Int32,
    waitForCancellation: bool)

  /** Go's zero value of `executeActivityParameters`. */
  const ZeroParams: Params := Params(None, ActivityType(""), "", None, 0, 0, 0, 0, false)

  /** The fields of an `activityOptions` builder, as a value: what the
      caller set explicitly, each absent until set. */
  datatype Options = Options(
    activityID: Option<string>,
    taskListName: Option<string>,
    scheduleToCloseTimeoutSeconds: Option<Int32>,
    scheduleToStartTimeoutSeconds: Option<Int32>,
    startToCloseTimeoutSeconds: Option<Int32>,
    heartbeatTimeoutSeconds: Option<Int32>,
    waitForCancellation: Option<bool>)

  const NoOptions: Options := Options(None, None, None, None, None, None, None)
}
