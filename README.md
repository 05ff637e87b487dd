# connect-request-timeout, modelled in Dafny

This project models a Connect middleware that guards each request with a timer.
When the middleware is entered, it picks a cycle duration: the upload timeout
for multipart/form-data requests, the ordinary timeout otherwise. It then arms
one timer and calls `next()`. It attaches `setTimeout`, `clearTimeout` and
`getTimeout` to the request. It wraps `res.write` and `res.writeHead` so that
each records activity, and `res.end` so that it cancels the timer.

When the timer fires there are three outcomes:

- If the response has finished, nothing happens.
- Otherwise the duration is added to the total. The request is reported to
  `next` as `Timeout <METHOD> <URL>` when the total reaches `maxTimeout`, or
  when no write happened during the cycle.
- Otherwise activity is cleared and the same duration is re-armed, carrying the
  error constructor into the next cycle.

Files:

- `config.dfy` (module `Config`): the options and their defaults.
- `machine.dfy` (module `Machine`): the per-request state as a value and one
  pure transition per operation. `Run` applies a sequence of events.
- `guard.dfy` (module `RequestTimeout`): class `Guard`. Its fields are the
  closure variables and its methods are the request functions, the response
  wrappers and the timer callback. Each method's contract ties the new state,
  through `Snapshot()`, to the `Machine` transition of the same name.
- `properties.dfy` (module `Properties`): lemmas about every run of the guard.
- `scenarios.dfy` (module `Scenarios`): concrete lifecycles driven through
  `Guard`, proved from its method contracts alone.

Abstractions:

- The host timer is the field `pending`, holding no timer or one
  `Timer(duration, override)`. Its firing is the explicit `Fire` operation,
  which consumes the timer.
- Calls to `next` are appended to `reported`: `NoError` for the initial
  `next()`, `Failure(ctor, message)` for a timeout error.
- Calls that reach the original response methods are appended to `transport`.
- An error constructor is an opaque tag, `ErrorCtor`.
- `req.is('multipart/form-data')` is the boolean `Request.multipart`.
- A JavaScript value that is `null` or `undefined` is `None`. For the per-call
  error constructor, which the source tests with `||`, `None` stands for any
  falsy value.

Points where the code behaves differently from what its header comment or a first reading suggests; the model follows the code:

- `setTimeout` does not reset `activity`. Only the automatic re-arm does
  (index.js:64).
- `totalTime` is never reset (index.js:47, 56).
- The write wrappers set `activity` even after `end`; they have no finished
  check (index.js:85, 93).
- A `setTimeout` call after `end` still arms a timer. Its fire is a no-op
  because of the finished check (index.js:55); `Properties.FinishedAbsorbs`
  proves this.
- Reporting a timeout is not terminal. Request code may call `setTimeout`
  again, and a later fire can report again.
- A user call to `setTimeout(d)` without an error constructor arms a timer
  whose fire uses the configured default. A per-call constructor persists only
  through the automatic re-arm (index.js:57, 65). This holds even if an
  earlier cycle used an override.
- Only the first `end` cancels the timer. The wrapper restores the original
  `end`, so a second `end` leaves any pending timer alone (index.js:78-79).
- A write does not reset the timer, whatever the header comment says
  (index.js:13-14). It only sets the activity flag, which the fire at the end of
  the full cycle reads (index.js:60, 85, 93). An idle request is therefore
  reported one whole cycle after the last re-arm, not one cycle after its last
  write.
- The total can pass `maxTimeout` by up to one cycle, because the ceiling test
  comes after the duration is added (index.js:56-58). With 100/150 and
  continuous activity the report comes at a total of 200
  (`Scenarios.ActiveUntilCeiling`). With 100/250 it comes at 300
  (`Scenarios.WritesThenIdle`). `Properties.RunTotalTimeBounded` proves the
  one-cycle bound.
- With a duration of 0, which the source keeps both from the options and from
  `setTimeout(0)` (index.js:34, 51), every fire adds 0 to the total. A request
  that keeps writing is then re-armed for ever and never reaches the ceiling
  (`Properties.ZeroDurationNeverCeilings`).

## Model

| member | source | states |
|---|---|---|
| Config.Configure | index.js:31-41 | A missing options object acts like an empty one. A null or undefined option becomes 10000, 60000, 600000 or `Error`. Any provided value, 0 included, is kept. |
| Config.ConfigureKeepsProvided | index.js:34-41 | Defaulting never overrides a provided value: a full set of options comes back exactly. |
| Config.ConfigureIdempotent | index.js:34-41 | Defaulting the defaulted settings changes nothing. |
| Machine.Init | index.js:44-101 | The first duration is `uploadTimeout` exactly when the request is multipart, otherwise `timeout`. `totalTime` is 0 and activity is false. One timer is pending with no override, and `next` has been called once, with no error. |
| Machine.SetTimeout | index.js:50-54 | The stored duration is replaced exactly when one is provided (0 included). The old timer is cancelled and exactly one timer is pending, with the new duration and this call's constructor. Nothing else changes; in particular activity and `totalTime` do not. |
| Machine.ClearTimeout | index.js:69-71 | No timer is pending and nothing else changes. Repeating it is therefore a no-op. |
| Machine.GetTimeout | index.js:72-74 | Returns the stored cycle duration, which equals the pending timer's full duration, not the time remaining. |
| Machine.Write | index.js:83-90 | Activity becomes true and one body write reaches the transport. Nothing else changes, and there is no finished check. |
| Machine.WriteHead | index.js:91-98 | Activity becomes true and one header write reaches the transport. Nothing else changes. |
| Machine.End | index.js:76-81 | The response is finished and one `end` reaches the transport. While the wrapper is installed, the timer is cancelled and the wrapper removed; a later `end` leaves the timer as it is. Durations, activity and reports are unchanged. |
| Machine.Fire | index.js:54-67 | The fire consumes the timer. After finish nothing else changes. Otherwise the duration is added to `totalTime`. One `Failure(ctor, "Timeout M U")` is reported exactly when the ceiling is reached or there was no activity, and then no timer is left. Otherwise activity is cleared and the same duration is re-armed with the resolved constructor (override, else default). |
| RequestTimeout.Guard.Init | index.js:42-101 | The constructed guard's state is `Machine.Init` of its settings and request, and the pending-duration invariant holds. |
| RequestTimeout.Guard.SetTimeout | index.js:50-68 | The new state is `Machine.SetTimeout` of the old one; the pending timer carries the stored duration and this call's constructor. |
| RequestTimeout.Guard.ClearTimeout | index.js:69-71 | The new state is `Machine.ClearTimeout` of the old one: no timer is pending. |
| RequestTimeout.Guard.GetTimeout | index.js:72-74 | Returns the duration of the pending timer when there is one, which is the stored duration. |
| RequestTimeout.Guard.Write | index.js:83-90 | The new state is `Machine.Write` of the old one; activity is true and the invariant is kept. |
| RequestTimeout.Guard.WriteHead | index.js:91-98 | The new state is `Machine.WriteHead` of the old one; activity is true and the invariant is kept. |
| RequestTimeout.Guard.End | index.js:76-81 | The new state is `Machine.End` of the old one; the first `end` leaves no timer pending. |
| RequestTimeout.Guard.Fire | index.js:54-67 | The new state is `Machine.Fire` of the old one. A fire after finish reports nothing and adds no time. |
| Properties.RunKeepsConsistent | index.js:50-74 | After any sequence of events, a pending timer carries the stored duration. There is never more than one pending timer. |
| Properties.RunTotalTimeGrows | index.js:47-56 | If no call sets a negative duration, `totalTime` never decreases over any run. |
| Properties.ActivityClearedOnlyByReArm | index.js:50-66 | The only event that turns activity from true to false is a live fire under the ceiling, which re-arms. |
| Properties.FinishedAbsorbs | index.js:55 | Once the response is finished, every later run keeps it finished. No error is reported and no time is added, even if a timer is re-armed and fires. |
| Properties.EndSilences | index.js:76-81 | The first `end` leaves no timer pending. After `end`, no sequence of events reports an error. |
| Properties.BusyUnderCeiling | index.js:56-66 | While each busy cycle (one write, then a fire) stays under the ceiling, the guard stays armed. `totalTime` grows by the duration each cycle, the duration and constructor carry over, and nothing is reported. |
| Properties.ReachesCeiling | index.js:56-59 | The busy cycle that reaches the ceiling reports exactly one error and leaves no timer, even though a write happened. The error uses the constructor carried over from the first cycle. |
| Properties.BusyBeforeBound | index.js:13-14 | With a positive duration, a busy request is not reported before its last granted fire. |
| Properties.BusyFailsAtBound | index.js:13-14 | With a positive duration, continuous activity ends: the last granted fire reports exactly one error and leaves no timer. |
| Properties.InitFiresLeft | index.js:13-14 | For a fresh request with positive duration and ceiling, the number of granted fires is ceil(maxTimeout / duration). |
| Properties.ZeroDurationNeverCeilings | index.js:56-66 | With a zero duration and a total under the ceiling, any number of busy cycles leaves the guard live and unreported, and the total unchanged: the ceiling is never reached. |
| Properties.RunTotalTimeBounded | index.js:56-66 | For any run in which request code does not call `setTimeout`, with any mix of writes, header writes, `clearTimeout`, `end` and fires: the duration is unchanged, a pending timer means the total is under `maxTimeout`, and the total stays below `maxTimeout` plus one cycle. |
| Properties.InitTotalTimeBounded | index.js:13-14 | A fresh request with positive `maxTimeout` and non-negative duration, whose code never calls `setTimeout`, accumulates less than `maxTimeout` plus one cycle over any run. A positive `maxTimeout` is needed: with an explicit `maxTimeout: 0`, which the source keeps, the first fire already makes the total equal `maxTimeout` plus one cycle, so the strict bound fails. |
| Properties.NoSecondReport | index.js:58-61 | After the guard has given up (no timer pending), no run without a `setTimeout` call reports anything more, and no timer is pending at its end. |
| Scenarios.IdleRequest | index.js:58-61 | With timeout 100 and maxTimeout 250 and no activity, the GET /x request gets exactly one `Timeout GET /x` error and no timer is left. |
| Scenarios.WritesThenIdle | index.js:56-66 | With timeout 100 and maxTimeout 250 and a write in each of the first two cycles, both fires re-arm. The third fire reports once, at a total of 300. |
| Scenarios.ActiveUntilCeiling | index.js:56-59 | With timeout 100, maxTimeout 150 and activity in every cycle, the second fire reports even though the request was active. |
| Scenarios.EndBeforeTimeout | index.js:69-81 | `end` before the fire cancels the timer. A second `end` and repeated `clearTimeout` calls change nothing, and no error is reported. |
| Scenarios.ArmAfterEnd | index.js:50-55 | `setTimeout` after `end` arms a timer, but its fire reports nothing and adds no time. |
| Scenarios.UploadThenZero | index.js:34-57 | A default-configured upload starts at 60000 ms. An explicit `setTimeout(0, Fatal)` is kept, and the fire reports with `Fatal`. |

## Left out

- Host timers (`setTimeout`/`clearTimeout` of the runtime) are abstracted into the `pending` field and the explicit `Fire` operation. Real time, scheduling order, and the runtime's clamping of delays are not modelled.
- The Connect `next` callback and downstream error handling: a call to `next` is only recorded in `reported`.
- Content-type detection (`req.is`): it belongs to the framework and is taken as the boolean `Request.multipart`.
- Error construction: a constructor is an opaque `ErrorCtor` tag. A configured `errorPrototype` that is falsy but not null (kept by the `== null` test, then unusable by `new`) is not represented.
- The method-swapping and `apply` mechanics of the response wrappers, their arguments and return values, and the HTTP transport: only their observable effect is modelled. That effect is a flag set, the timer cleared, the original `end` restored, and one call forwarded.
- Machine.Fire: the source reads `options.errorPrototype` and `options.maxTimeout` from the shared, mutable options object at each fire, and reads `options.timeout`/`uploadTimeout` at each request. It reads `req.method` and `req.url` only when it builds the error message; Connect may have rewritten `req.url` for a mounted handler by then. The model fixes the settings and the request's method and URL when the guard is created, so a later change to either object cannot be expressed.
- Properties.BusyFailsAtBound: assumes a positive duration. It cannot hold otherwise: with a zero duration the source's ceiling is never reached under continuous activity, which `Properties.ZeroDurationNeverCeilings` proves, and a negative one only lowers the total. So the header's "a maximum of `maxTimeout` ms" does not hold for those durations. `Properties.BusyBeforeBound` and `Properties.InitFiresLeft` assume a positive duration for the same reason.
- Config.Configure: the source writes the defaults into the caller's options object in place. The model returns the defaulted settings as a value and does not model that mutation.
- Durations are unbounded integers. JavaScript non-integer, NaN or non-numeric timeouts are not modelled. Monotonicity of `totalTime` is proved only for non-negative durations, because with a negative duration the source's total really does decrease.
