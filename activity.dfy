/** The public half of the activity invocation layer: binding an execution
    environment and reading it back, heartbeating, and attaching scheduling
    options to a context. Every option setter finds the parameters object
    the context reaches and overwrites its fields in place, so all contexts
    that reach that object observe the change. */
module Activity {
  import opened Wrappers
  import opened ActivityTypes
  import opened Contexts
  import opened InternalActivity

  // ---------------------------------------------------------------------------
  // The execution environment
  // ---------------------------------------------------------------------------

  /** The identity of the activity whose environment `ctx` carries: the
      identity fields of the environment the nearest binding holds. */
  function GetActivityInfo(ctx: ActivityContext): (info: ActivityInfo)
    requires EnvironmentBound(ctx)
    ensures exists env :: NearestEnvironment(ctx, env)
                          && info == ActivityInfo(env.taskToken, env.workflowExecution, env.activityID, env.activityType)
  {
    var env := GetActivityEnv(ctx);
    ActivityInfo(env.taskToken, env.workflowExecution, env.activityID, env.activityType)
  }

  /** The logger of the environment the nearest binding holds. */
  function GetActivityLogger(ctx: ActivityContext): (logger: Logger)
    requires EnvironmentBound(ctx)
    ensures exists env :: NearestEnvironment(ctx, env) && logger == env.logger
  {
    GetActivityEnv(ctx).logger
  }

  /** `WithActivityTask`: bind the environment built from a poll response,
      an invoker and a logger. Dereferencing a nil field of the response
      would panic, hence the requirement. */
  function WithActivityTask(ctx: ActivityContext, task: PollForActivityTaskResponse, invoker: ServiceInvoker, logger: Logger)
    : (r: ActivityContext)
    requires TaskComplete(task)
    ensures EnvironmentBound(r)
    ensures GetActivityInfo(r) == ActivityInfo(
              task.taskToken,
              WorkflowExecution(task.workflowExecution.value.workflowId.value, task.workflowExecution.value.runId.value),
              task.activityId.value,
              ActivityType(task.activityType.value.name.value))
    ensures GetActivityEnv(r).serviceInvoker == invoker && GetActivityLogger(r) == logger
    ensures Lookup(r, ActivityOptionsContextKey) == Lookup(ctx, ActivityOptionsContextKey)
  {
    WithValue(ctx, ActivityEnvContextKey, EnvironmentValue(ActivityEnvironment(
      task.taskToken,
      WorkflowExecution(task.workflowExecution.value.workflowId.value, task.workflowExecution.value.runId.value),
      task.activityId.value,
      ActivityType(task.activityType.value.name.value),
      invoker,
      logger)))
  }

  /** What one heartbeat does: the encoded details it sends, and the
      invoker's error, which only reaches the debug log. */
  datatype HeartbeatReport = HeartbeatReport(sent: Bytes, logged: Option<string>)

  /** `RecordActivityHeartbeat`: encode the details and hand them to the
      bound invoker. It returns nothing to its caller; it panics only when
      the details cannot be encoded or no environment is bound, hence the
      requirements. */
  function RecordActivityHeartbeat(host: HostEnvironment, ctx: ActivityContext, details: seq<Value>): (r: HeartbeatReport)
    requires host.encodeArgs(details).Success?
    requires EnvironmentBound(ctx)
    ensures host.encodeArgs(details) == Success(r.sent)
    ensures exists env :: NearestEnvironment(ctx, env) && r.logged == env.serviceInvoker.heartbeat(r.sent)
  {
    var data := host.encodeArgs(details).value;
    var env := GetActivityEnv(ctx);
    HeartbeatReport(data, env.serviceInvoker.heartbeat(data))
  }

  /** A heartbeat from code running under `WithActivityTask` goes to the
      invoker bound there, even when an outer context bound another. */
  lemma HeartbeatUsesBoundInvoker(host: HostEnvironment, ctx: ActivityContext, task: PollForActivityTaskResponse,
                                  invoker: ServiceInvoker, logger: Logger, details: seq<Value>)
    requires TaskComplete(task) && host.encodeArgs(details).Success?
    ensures var r := RecordActivityHeartbeat(host, WithActivityTask(ctx, task, invoker, logger), details);
            r.logged == invoker.heartbeat(host.encodeArgs(details).value)
  {
  }

  // ---------------------------------------------------------------------------
  // Options
  // ---------------------------------------------------------------------------

  /** `NewActivityOptions`: an empty builder. */
  method NewActivityOptions() returns (o: ActivityOptions)
    ensures fresh(o) && o.Fields() == NoOptions
  {
    o := new ActivityOptions();
  }

  /** The parameters after an overlay: every field the builder set wins,
      every other field keeps its value. */
  function Overlay(base: Params, o: Options): (r: Params)
    ensures r.activityType == base.activityType && r.input == base.input
  {
    Params(
      if o.activityID.Some? then o.activityID else base.activityID,
      base.activityType,
      if o.taskListName.Some? then o.taskListName.value else base.taskListName,
      base.input,
      if o.scheduleToCloseTimeoutSeconds.Some? then o.scheduleToCloseTimeoutSeconds.value else base.scheduleToCloseTimeoutSeconds,
      if o.scheduleToStartTimeoutSeconds.Some? then o.scheduleToStartTimeoutSeconds.value else base.scheduleToStartTimeoutSeconds,
      if o.startToCloseTimeoutSeconds.Some? then o.startToCloseTimeoutSeconds.value else base.startToCloseTimeoutSeconds,
      if o.heartbeatTimeoutSeconds.Some? then o.heartbeatTimeoutSeconds.value else base.heartbeatTimeoutSeconds,
      if o.waitForCancellation.Some? then o.waitForCancellation.value else base.waitForCancellation)
  }

  /** `second`'s set fields, and `first`'s where `second` set nothing. */
  function Merge(first: Options, second: Options): Options {
    Options(
      if second.activityID.Some? then second.activityID else first.activityID,
      if second.taskListName.Some? then second.taskListName else first.taskListName,
      if second.scheduleToCloseTimeoutSeconds.Some? then second.scheduleToCloseTimeoutSeconds else first.scheduleToCloseTimeoutSeconds,
      if second.scheduleToStartTimeoutSeconds.Some? then second.scheduleToStartTimeoutSeconds else first.scheduleToStartTimeoutSeconds,
      if second.startToCloseTimeoutSeconds.Some? then second.startToCloseTimeoutSeconds else first.startToCloseTimeoutSeconds,
      if second.heartbeatTimeoutSeconds.Some? then second.heartbeatTimeoutSeconds else first.heartbeatTimeoutSeconds,
      if second.waitForCancellation.Some? then second.waitForCancellation else first.waitForCancellation)
  }

  /** A builder with nothing set changes nothing. */
  lemma OverlayOfNoOptions(base: Params)
    ensures Overlay(base, NoOptions) == base
  {
  }

  /** Applying the same options twice is applying them once. */
  lemma OverlayIdempotent(base: Params, o: Options)
    ensures Overlay(Overlay(base, o), o) == Overlay(base, o)
  {
  }

  /** Two overlays in turn are one overlay of the merged options. */
  lemma OverlaysCompose(base: Params, first: Options, second: Options)
    ensures Overlay(Overlay(base, first), second) == Overlay(base, Merge(first, second))
  {
  }

  /** `WithActivityOptions`: copy every field the builder set into the
      parameters object the context reaches (creating it in a child context
      when there is none). */
  method WithActivityOptions(ctx: ActivityContext, options: ActivityOptions) returns (ctx1: ActivityContext)
    requires ParametersWellTyped(ctx)
    modifies ParametersFootprint(ctx)
    ensures ParametersAttached(ctx, ctx1)
    ensures GetActivityOptions(ctx1).value.Fields() == Overlay(old(FieldsOrZero(ctx)), options.Fields())
  {
    ctx1 := SetActivityParametersIfNotExist(ctx);
    CopySetOptions(GetActivityOptions(ctx1).value, options);
  }

  /** The copy at the heart of `WithActivityOptions`: every field the builder
      set replaces the object's, in place. The code's one `if` per field is
      Overlay's one conditional per field; the object is written once with
      the result, which leaves the unset fields as they were. */
  method CopySetOptions(eap: ExecuteActivityParameters, options: ActivityOptions)
    modifies eap
    ensures eap.Fields() == Overlay(old(eap.Fields()), options.Fields())
  {
    var p := Overlay(eap.Fields(), options.Fields());
    eap.taskListName := p.taskListName;
    eap.scheduleToCloseTimeoutSeconds := p.scheduleToCloseTimeoutSeconds;
    eap.startToCloseTimeoutSeconds := p.startToCloseTimeoutSeconds;
    eap.scheduleToStartTimeoutSeconds := p.scheduleToStartTimeoutSeconds;
    eap.heartbeatTimeoutSeconds := p.heartbeatTimeoutSeconds;
    eap.waitForCancellation := p.waitForCancellation;
    eap.activityID := p.activityID;
  }

  method WithTaskList(ctx: ActivityContext, name: string) returns (ctx1: ActivityContext)
    requires ParametersWellTyped(ctx)
    modifies ParametersFootprint(ctx)
    ensures ParametersAttached(ctx, ctx1)
    ensures GetActivityOptions(ctx1).value.Fields() == old(FieldsOrZero(ctx)).(taskListName := name)
  {
    ctx1 := SetActivityParametersIfNotExist(ctx);
    GetActivityOptions(ctx1).value.taskListName := name;
  }

  method WithScheduleToCloseTimeout(ctx: ActivityContext, d: Duration) returns (ctx1: ActivityContext)
    requires ParametersWellTyped(ctx) && SecondsFitInt32(d)
    modifies ParametersFootprint(ctx)
    ensures ParametersAttached(ctx, ctx1)
    ensures GetActivityOptions(ctx1).value.Fields() ==
              old(FieldsOrZero(ctx)).(scheduleToCloseTimeoutSeconds := Int32Seconds(d))
  {
    ctx1 := SetActivityParametersIfNotExist(ctx);
    GetActivityOptions(ctx1).value.scheduleToCloseTimeoutSeconds := Int32Seconds(d);
  }

  method WithScheduleToStartTimeout(ctx: ActivityContext, d: Duration) returns (ctx1: ActivityContext)
    requires ParametersWellTyped(ctx) && SecondsFitInt32(d)
    modifies ParametersFootprint(ctx)
    ensures ParametersAttached(ctx, ctx1)
    ensures GetActivityOptions(ctx1).value.Fields() ==
              old(FieldsOrZero(ctx)).(scheduleToStartTimeoutSeconds := Int32Seconds(d))
  {
    ctx1 := SetActivityParametersIfNotExist(ctx);
    GetActivityOptions(ctx1).value.scheduleToStartTimeoutSeconds := Int32Seconds(d);
  }

  method WithStartToCloseTimeout(ctx: ActivityContext, d: Duration) returns (ctx1: ActivityContext)
    requires ParametersWellTyped(ctx) && SecondsFitInt32(d)
    modifies ParametersFootprint(ctx)
    ensures ParametersAttached(ctx, ctx1)
    ensures GetActivityOptions(ctx1).value.Fields() ==
              old(FieldsOrZero(ctx)).(startToCloseTimeoutSeconds := Int32Seconds(d))
  {
    ctx1 := SetActivityParametersIfNotExist(ctx);
    GetActivityOptions(ctx1).value.startToCloseTimeoutSeconds := Int32Seconds(d);
  }

  method WithHeartbeatTimeout(ctx: ActivityContext, d: Duration) returns (ctx1: ActivityContext)
    requires ParametersWellTyped(ctx) && SecondsFitInt32(d)
    modifies ParametersFootprint(ctx)
    ensures ParametersAttached(ctx, ctx1)
    ensures GetActivityOptions(ctx1).value.Fields() ==
              old(FieldsOrZero(ctx)).(heartbeatTimeoutSeconds := Int32Seconds(d))
  {
    ctx1 := SetActivityParametersIfNotExist(ctx);
    GetActivityOptions(ctx1).value.heartbeatTimeoutSeconds := Int32Seconds(d);
  }

  method WithWaitForCancellation(ctx: ActivityContext, wait: bool) returns (ctx1: ActivityContext)
    requires ParametersWellTyped(ctx)
    modifies ParametersFootprint(ctx)
    ensures ParametersAttached(ctx, ctx1)
    ensures GetActivityOptions(ctx1).value.Fields() == old(FieldsOrZero(ctx)).(waitForCancellation := wait)
  {
    ctx1 := SetActivityParametersIfNotExist(ctx);
    GetActivityOptions(ctx1).value.waitForCancellation := wait;
  }

  /** Setting one field directly has the effect of a builder that set only
      that field. */
  lemma SetterIsSingleFieldOverlay(base: Params, name: string, seconds: Int32, wait: bool)
    ensures base.(taskListName := name) == Overlay(base, NoOptions.(taskListName := Some(name)))
    ensures base.(scheduleToCloseTimeoutSeconds := seconds) == Overlay(base, NoOptions.(scheduleToCloseTimeoutSeconds := Some(seconds)))
    ensures base.(scheduleToStartTimeoutSeconds := seconds) == Overlay(base, NoOptions.(scheduleToStartTimeoutSeconds := Some(seconds)))
    ensures base.(startToCloseTimeoutSeconds := seconds) == Overlay(base, NoOptions.(startToCloseTimeoutSeconds := Some(seconds)))
    ensures base.(heartbeatTimeoutSeconds := seconds) == Overlay(base, NoOptions.(heartbeatTimeoutSeconds := Some(seconds)))
    ensures base.(waitForCancellation := wait) == Overlay(base, NoOptions.(waitForCancellation := Some(wait)))
  {
  }

  // ---------------------------------------------------------------------------
  // Consequences of sharing the parameters object
  // ---------------------------------------------------------------------------

  /** A setter applied to a context derived from `ancestor` without a new
      options binding changes the object the ancestor reaches: the ancestor
      observes the new task list. */
  method AncestorObservesUpdate(ancestor: ActivityContext, child: ActivityContext, name: string) returns (ctx1: ActivityContext)
    requires ParametersWellTyped(ancestor) && GetActivityOptions(ancestor).Some?
    requires DerivedFrom(child, ancestor) && !RebindsBetween(child, ancestor, ActivityOptionsContextKey)
    modifies ParametersFootprint(ancestor)
    ensures ctx1 == child && ParametersWellTyped(ctx1)
    ensures GetActivityOptions(ancestor) == GetActivityOptions(ctx1)
    ensures GetActivityOptions(ancestor).value.taskListName == name
  {
    DerivedLookup(child, ancestor, ActivityOptionsContextKey);
    ctx1 := WithTaskList(child, name);
  }

  /** Two task lists set in turn from the root: the second finds the object
      the first attached, so the context the first returned reads "B" too. */
  method OverlayScenario() returns (c1: ActivityContext, c2: ActivityContext)
    ensures ParametersWellTyped(c1) && GetActivityOptions(c1).Some?
    ensures c2 == c1 && GetActivityOptions(c1).value.taskListName == "B"
  {
    c1 := WithTaskList(Background, "A");
    c2 := WithTaskList(c1, "B");
  }

  /** A timeout under one second is stored as 0 and fails validation. */
  method SubSecondTimeoutFailsValidation(ctx: ActivityContext, d: Duration) returns (ctx1: ActivityContext)
    requires ParametersWellTyped(ctx) && -NanosPerSecond < d < NanosPerSecond
    modifies ParametersFootprint(ctx)
    ensures ParametersWellTyped(ctx1)
    ensures GetActivityOptions(ctx1).Some? && GetActivityOptions(ctx1).value.scheduleToStartTimeoutSeconds == 0
    ensures GetValidatedActivityOptions(ctx1) == Failure(MissingScheduleToStartTimeout)
  {
    ctx1 := WithScheduleToStartTimeout(ctx, d);
  }

  /** Storing a timeout under one second leaves the parameters
      unschedulable whichever of the three checked timeouts it is, while a
      heartbeat timeout of any length has no say in validation. */
  lemma SubSecondTimeouts(p: Params, d: Duration)
    requires -NanosPerSecond < d < NanosPerSecond
    ensures !Schedulable(p.(scheduleToCloseTimeoutSeconds := Int32Seconds(d)))
    ensures !Schedulable(p.(scheduleToStartTimeoutSeconds := Int32Seconds(d)))
    ensures !Schedulable(p.(startToCloseTimeoutSeconds := Int32Seconds(d)))
    ensures Schedulable(p.(heartbeatTimeoutSeconds := Int32Seconds(d))) == Schedulable(p)
  {
  }

  /** Options with a task list and three timeouts of at least one second,
      attached to a fresh root context, pass validation with exactly those
      values. */
  method ConfiguredOptionsValidate(taskList: string, toClose: Duration, toStart: Duration, startToClose: Duration)
    returns (ctx1: ActivityContext)
    requires NanosPerSecond <= toClose && SecondsFitInt32(toClose)
    requires NanosPerSecond <= toStart && SecondsFitInt32(toStart)
    requires NanosPerSecond <= startToClose && SecondsFitInt32(startToClose)
    ensures ParametersWellTyped(ctx1) && GetValidatedActivityOptions(ctx1).Success?
    ensures var p := GetValidatedActivityOptions(ctx1).value.Fields();
            && p.taskListName == taskList
            && p.scheduleToCloseTimeoutSeconds == TruncatedSeconds(toClose)
            && p.scheduleToStartTimeoutSeconds == TruncatedSeconds(toStart)
            && p.startToCloseTimeoutSeconds == TruncatedSeconds(startToClose)
  {
    var o := NewActivityOptions();
    o := o.WithTaskList(taskList);
    o := o.WithScheduleToCloseTimeout(toClose);
    o := o.WithScheduleToStartTimeout(toStart);
    o := o.WithStartToCloseTimeout(startToClose);
    ctx1 := WithActivityOptions(Background, o);
  }
}
