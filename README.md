# Cadence client: activity invocation layer, in Dafny

This project models the client-side activity invocation layer of the Cadence
Go client (`client/cadence/activity.go` and `client/cadence/internal_activity.go`)
and proves properties of the model:

- **Scheduling parameters in a context.** A context is a parent-linked chain of
  key/value nodes (`Contexts.Context`); a lookup answers with the nearest
  binding. One node may bind a mutable `executeActivityParameters` object,
  modelled as the class `InternalActivity.ExecuteActivityParameters`. The
  option setters (`WithActivityOptions`, `WithTaskList`, the four timeout
  setters, `WithWaitForCancellation`) reuse the object the context reaches and
  overwrite its fields in place; only when no object is reachable do they bind
  a fresh zero-valued one in a child context. Every context that reaches the
  object, ancestors included, sees the change.
- **The `activityOptions` builder**, a class of optional fields whose setters
  fill one field each and return the same receiver, and the overlay that
  `WithActivityOptions` performs with it: set fields win, unset ones keep
  their value.
- **Validation before scheduling** (`getValidatedActivityOptions`): missing
  parameters, then the schedule-to-start, schedule-to-close and
  start-to-close timeouts, checked in that order.
- **The call-site signature check** (`validateFunctionArgs`), as a loop that
  walks the declared parameters and the arguments in step, proved equal to a
  declarative specification: a leading context parameter of the requested
  flavour is skipped, the remaining count must equal the number of arguments,
  and the first argument whose type is not assignable is reported with its
  1-based declared position.
- **Result handling**: a function returns `error` or `(result, error)`; the
  result is encoded and returned together with the error. On the way back,
  a function (or a name that the activity registry resolves to a function)
  with other than two results, or a nil payload, is not decoded; an
  unregistered name or a value of any other kind always decodes the payload,
  even a nil one.
- **The execution environment**: `WithActivityTask` binds a read-only record,
  `GetActivityInfo` projects it, `RecordActivityHeartbeat` sends encoded
  details to the bound invoker and only logs the invoker's error.

Go's run-time reflection becomes explicit descriptors
(`ActivityTypes.TypeDescriptor`: kind, parameter type tags, result count) and a
`TypeSystem` record of relations (assignability, "implements
`context.Context`", "is a workflow context", "implements `error`"). The host
environment that the files call but do not define (the argument codec, the
activity registry, the registration-time signature check) is a
`HostEnvironment` record of functions that the model leaves uninterpreted.
Durations are integer nanoseconds; `int32(d.Seconds())` is truncation toward
zero of the count divided by 10^9, required to fit in an int32. Where the Go
code panics (a missing execution environment, a value of the wrong type under
the options key, a nil field in a poll response, details that cannot be
encoded for a heartbeat), the model states a precondition.

One might expect the option chain to be copy-on-first-write, with an
ancestor context unaffected by a setter applied to a descendant. The code
does not do that: `setActivityParametersIfNotExist` returns the context
unchanged whenever a parameters object is reachable, and the setter then
writes into that shared object. The model follows the code.
`Activity.OverlayScenario` shows the consequence: after
`c1 := WithTaskList(Background, "A")` and `c2 := WithTaskList(c1, "B")`, `c2`
is `c1` and its task list reads "B".

Files: `wrappers.dfy` (Option, Result), `types.dfy` (the layer's values and the
descriptors that replace reflection), `contexts.dfy` (the context chain),
`internal_activity.dfy` (module `InternalActivity`), `activity.dfy` (module
`Activity`).

## Model

| member | source | states |
|---|---|---|
| Contexts.Lookup | client/cadence/internal_activity.go:89-95 | `ctx.Value(key)`: None exactly when no node binds the key; otherwise the value of the nearest node that binds it, with no nearer binding of that key |
| Contexts.DerivedLookup | client/cadence/internal_activity.go:287-292 | a context derived from an ancestor without rebinding a key sees the very value the ancestor sees, so derived contexts share the parameters object instead of copying it |
| InternalActivity.GetActivityEnv | client/cadence/internal_activity.go:81-87 | the environment of the nearest environment binding; calling it with none bound is excluded, as the code panics |
| InternalActivity.NearestEnvironmentUnique | client/cadence/internal_activity.go:81-87 | a context has at most one nearest environment binding, so every projection of "the bound environment" is determined by the context |
| InternalActivity.GetActivityOptions | client/cadence/internal_activity.go:89-95 | the parameters object of the nearest options binding, and None exactly when no node binds the options key |
| InternalActivity.GetValidatedActivityOptions | client/cadence/internal_activity.go:97-113 | ActivityParamsBadRequest exactly when no parameters object is reachable; success exactly when the three scheduling timeouts are positive, returning that very object; otherwise the first of schedule-to-start, schedule-to-close, start-to-close that is not positive |
| InternalActivity.ValidationIgnoresUncheckedFields | client/cadence/internal_activity.go:103-112 | two parameters objects that agree on the three scheduling timeouts get the same verdict; task list and heartbeat timeout are never checked |
| InternalActivity.SetActivityParametersIfNotExist | client/cadence/internal_activity.go:287-292 | the same context when a parameters object is reachable, otherwise a child binding a freshly allocated object; either way the object's fields are the old ones or the zero values |
| InternalActivity.ExecuteActivityParameters.constructor | client/cadence/internal_activity.go:289 | a new parameters object holds Go's zero values |
| InternalActivity.FirstUnassignable | client/cadence/internal_activity.go:140-149 | None exactly when every argument type is assignable to its parameter; otherwise the least position where it is not |
| InternalActivity.CheckFunctionArgs | client/cadence/internal_activity.go:115-138 | a non-function is refused without looking at the arguments; a count mismatch is reported exactly when the count after skipping a leading context parameter differs from the number of arguments, naming the function and both counts |
| InternalActivity.CheckAcceptsExactly | client/cadence/internal_activity.go:115-152 | no error exactly for a function whose count after the skipped context parameter equals the number of arguments and whose every argument is assignable to the declared parameter beside it |
| InternalActivity.CheckBlamesExactly | client/cadence/internal_activity.go:133-149 | an assignability error exactly when the counts agree and some argument is not assignable to its declared parameter |
| InternalActivity.CheckBlamesFirst | client/cadence/internal_activity.go:140-149 | an assignability error blames the first failing argument, by its 1-based declared position, with its type and the declared type, every earlier argument being assignable |
| InternalActivity.ValidateFunctionArgs | client/cadence/internal_activity.go:115-152 | the loop advancing the declared-parameter index and the argument index in step returns exactly what CheckFunctionArgs specifies |
| InternalActivity.ArityIsExact | client/cadence/internal_activity.go:133-138 | adding an argument to, or removing one from, an accepted call makes the check fail |
| InternalActivity.GetValidatedActivityFunction | client/cadence/internal_activity.go:181-204 | a non-function, non-string value is refused; a function's argument error is returned before anything is encoded; success exactly for a string or an accepted function call whose arguments encode, carrying the name and the encoded input; when such arguments fail to encode, the codec's error |
| InternalActivity.ValidateFunctionResults | client/cadence/internal_activity.go:154-179 | a value that is neither a function nor a string is refused; a function failing the signature check is refused with that error; otherwise a nil result gives a nil payload and any other result its encoding when the codec accepts it, or the codec's error |
| InternalActivity.ValidateFunctionAndGetResults | client/cadence/internal_activity.go:211-245 | a result count outside 1..2 is refused; with two results a first value the codec refuses gives that serialization error; no error exactly when the last value is nil and, with two results, the first encodes; then the payload is the first value's encoding, or nil with one result; a non-nil last value that implements `error` is returned as the activity's failure together with that payload, and one that does not gives an error-type error with no payload |
| InternalActivity.DeserializeFnResultFromFnType | client/cadence/internal_activity.go:247-265 | a non-function type is an error; nothing is decoded exactly when the function has a result count other than 2 or the payload is nil; otherwise the outcome is the codec's decoding |
| InternalActivity.DeserializeFunctionResult | client/cadence/internal_activity.go:267-285 | a function decides through its own result count, a registered name through the registered function's; an unregistered name or any other value always decodes the payload |
| InternalActivity.ResultRoundTrip | client/cadence/internal_activity.go:211-265 | given a codec that round-trips the value, the result a two-result function returns with a nil error is decoded back unchanged; a one-result function leaves nothing to decode |
| InternalActivity.ActivityOptions.constructor | client/cadence/activity.go:130 | a new builder has no field set |
| InternalActivity.ActivityOptions.WithTaskList | client/cadence/internal_activity.go:295-298 | sets only the task list and returns the same builder |
| InternalActivity.ActivityOptions.WithScheduleToCloseTimeout | client/cadence/internal_activity.go:301-304 | sets only the schedule-to-close timeout, to the duration's whole seconds, and returns the same builder |
| InternalActivity.ActivityOptions.WithScheduleToStartTimeout | client/cadence/internal_activity.go:307-310 | sets only the schedule-to-start timeout, to the duration's whole seconds, and returns the same builder |
| InternalActivity.ActivityOptions.WithStartToCloseTimeout | client/cadence/internal_activity.go:313-316 | sets only the start-to-close timeout, to the duration's whole seconds, and returns the same builder |
| InternalActivity.ActivityOptions.WithHeartbeatTimeout | client/cadence/internal_activity.go:319-322 | sets only the heartbeat timeout, to the duration's whole seconds, and returns the same builder |
| InternalActivity.ActivityOptions.WithWaitForCancellation | client/cadence/internal_activity.go:325-328 | sets only the wait-for-cancellation flag and returns the same builder |
| InternalActivity.ActivityOptions.WithActivityID | client/cadence/internal_activity.go:333-336 | sets only the activity ID and returns the same builder |
| ActivityTypes.TruncatedSeconds | client/cadence/activity.go:172 | the whole seconds of a duration, truncated toward zero: zero exactly for durations under one second in magnitude |
| Activity.GetActivityInfo | client/cadence/activity.go:46-54 | the task token, workflow execution, activity ID and activity type held by the environment of the nearest environment binding |
| Activity.GetActivityLogger | client/cadence/activity.go:57-60 | the logger held by the environment of the nearest environment binding |
| Activity.WithActivityTask | client/cadence/activity.go:92-109 | binds an environment whose info is exactly the response's task token, workflow ID and run ID, activity ID and activity type name, with the given invoker and logger, and leaves the options binding as it was |
| Activity.RecordActivityHeartbeat | client/cadence/activity.go:70-81 | sends exactly the codec's encoding of the details to the invoker of the nearest environment binding; that invoker's answer only reaches the log and nothing is returned |
| Activity.HeartbeatUsesBoundInvoker | client/cadence/activity.go:70-81 | a heartbeat under `WithActivityTask` reaches the invoker bound there |
| Activity.NewActivityOptions | client/cadence/activity.go:129-131 | a fresh builder with nothing set |
| Activity.Overlay | client/cadence/activity.go:138-158 | the overlay never touches the activity type or the input |
| Activity.OverlayOfNoOptions | client/cadence/activity.go:138-158 | a builder with nothing set changes no field |
| Activity.OverlayIdempotent | client/cadence/activity.go:138-158 | applying the same options twice is applying them once |
| Activity.OverlaysCompose | client/cadence/activity.go:138-158 | two overlays in turn equal one overlay of the merged options, the later set fields winning |
| Activity.CopySetOptions | client/cadence/activity.go:138-158 | the object's fields become the overlay of its old fields by the builder's set fields |
| Activity.WithActivityOptions | client/cadence/activity.go:134-160 | reuses the reachable object or binds a fresh one; its fields become the overlay, by the builder's set fields, of the old fields (zero values for a fresh object) |
| Activity.WithTaskList | client/cadence/activity.go:163-167 | reuses the reachable object or binds a fresh one, and changes only its task list |
| Activity.WithScheduleToCloseTimeout | client/cadence/activity.go:170-174 | reuses the reachable object or binds a fresh one, and changes only its schedule-to-close timeout, to the truncated seconds |
| Activity.WithScheduleToStartTimeout | client/cadence/activity.go:177-181 | reuses the reachable object or binds a fresh one, and changes only its schedule-to-start timeout, to the truncated seconds |
| Activity.WithStartToCloseTimeout | client/cadence/activity.go:184-188 | reuses the reachable object or binds a fresh one, and changes only its start-to-close timeout, to the truncated seconds |
| Activity.WithHeartbeatTimeout | client/cadence/activity.go:191-195 | reuses the reachable object or binds a fresh one, and changes only its heartbeat timeout, to the truncated seconds |
| Activity.WithWaitForCancellation | client/cadence/activity.go:198-202 | reuses the reachable object or binds a fresh one, and changes only its wait-for-cancellation flag |
| Activity.SetterIsSingleFieldOverlay | client/cadence/activity.go:163-202 | each single-field setter has the effect of `WithActivityOptions` with a builder that set only that field |
| Activity.AncestorObservesUpdate | client/cadence/activity.go:163-167 | a setter applied to a context derived from an ancestor without a new options binding changes the object the ancestor reaches, and the ancestor reads the new value |
| Activity.OverlayScenario | client/cadence/activity.go:163-167 | setting task list "A" then "B" from the root returns the same context twice, and the first one reads "B" |
| Activity.SubSecondTimeoutFailsValidation | client/cadence/activity.go:177-181 | a schedule-to-start timeout under one second is stored as 0 and validation then reports the missing schedule-to-start timeout |
| Activity.SubSecondTimeouts | client/cadence/activity.go:170-195 | a timeout under one second makes the parameters fail validation whether it is the schedule-to-close, schedule-to-start or start-to-close timeout, while a heartbeat timeout of any length leaves the verdict unchanged |
| Activity.ConfiguredOptionsValidate | client/cadence/activity.go:134-160 | a builder with a task list and three timeouts of at least one second, attached to a root context, passes validation with that task list and with each timeout holding the truncated seconds of its own duration |

## Left out

- Go reflection (`reflect.TypeOf`, `Kind`, `NumIn`, `In`, `NumOut`, `Implements`, `AssignableTo`) is replaced by `TypeDescriptor` and the `TypeSystem` relations; `isWorkflowContext`, assignability and "implements error" are uninterpreted.
- `getHostEnvironment()` (the argument codec, the activity registry `getActivityFn`, `validateFnFormat`) is not part of this model; its operations are uninterpreted functions of `HostEnvironment`, and their errors are carried as messages.
- `RegisterActivity` (activity.go:37-43) only delegates to the host environment and panics on its error; it is not modelled.
- `getFunctionName` is not part of this model; a function value's name is the `name` field of `Callable`.
- InternalActivity.ValidateFunctionArgs: Go panics on an untyped nil argument only when the loop reaches it; with a count mismatch, or an earlier argument that is not assignable, Go returns that ordinary error instead. The model requires every argument to have a dynamic type, so it says nothing about any input holding an untyped nil, including those where Go answers with an error.
- InternalActivity.CheckFunctionArgs: the same requirement, and the same inputs left unspecified, as for ValidateFunctionArgs.
- InternalActivity.GetValidatedActivityFunction: when `f` is a function, the same requirement, and the same inputs left unspecified, as for ValidateFunctionArgs; a name or another kind takes any arguments.
- InternalActivity.ValidateFunctionAndGetResults: `Value` carries no nillability, so a last result of a kind that cannot be nil is treated like any non-nil value: `ActivityFailed` when its type implements `error`, `ErrorResultNotError` otherwise. Go's `IsNil` panics on such a value instead.
- A nil `f` makes the Go code panic at `reflect.TypeOf(f).Kind()` (internal_activity.go:117, 156, 184, 270); `Callable` has no nil value, and its `Other` kind stands for non-nil values of other kinds, so that panic is not modelled.
- ActivityTypes.TruncatedSeconds: `d.Seconds()` is a float64, which can round a very large duration up to the next whole second before truncation; the model truncates exactly, and durations whose seconds do not fit in an int32 are excluded by precondition.
- The `ServiceInvoker` transport and the cancellation of the execution context on a cancelled heartbeat: the invoker is a function from the encoded details to an optional error, and context cancellation is not modelled.
- zap logging: the heartbeat report's `logged` field stands for the debug line; nothing else is logged.
- The `asyncActivityClient` and `activity` interfaces and the `activityInfo` struct (internal_activity.go:16-51) have no implementation in these files.
- The workflow `Context` type, `WithValue` and `Background` come from files that are not part of this model; the model uses one context chain for both `Context` and `context.Context`.
- Activity.CopySetOptions: the code tests and copies the builder's fields one `if` at a time; the model computes the same overlay (one conditional per field, in `Overlay`) and writes the object once, which gives the same final state.
- Error messages are not modelled as text: each error is a constructor carrying the values its message formats.
