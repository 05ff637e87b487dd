/** The per-request timeout state machine as values: the closure state of one
    request (timeout, totalTime, activity, the timer handle) together with what
    the guard observes of the response and of the `next` callback, and one pure
    transition per operation. The class in guard.dfy is specified by these. */
module Machine {
  import opened Config

  /** What the middleware reads of the request: method, URL, and whether its
      content type is multipart/form-data (detected by the framework). */
  datatype Request = Request(verb: string, url: string, multipart: bool)

  /** The one scheduled callback: the duration it was armed with and the
      error constructor passed to the `setTimeout` call that armed it
      (`None` when that argument was absent or falsy). */
  datatype Timer = Timer(duration: int, override: Option<ErrorCtor>)

  /** An argument passed to `next`: no error, or a timeout error. */
  datatype NextArg = NoError | Failure(ctor: ErrorCtor, message: string)

  /** A call that reached the original (non-intercepted) response method. */
  datatype SinkCall = HeadWritten | BodyWritten | Ended

  /** The state of one request's guard.
      - `timeout`: the current cycle duration (`getTimeout` returns it);
      - `totalTime`: the sum of the durations of all live fires;
      - `activity`: a write or header write happened since the last re-arm;
      - `pending`: the scheduled timer, if any (there is at most one);
      - `finished`: the response's own `finished` flag;
      - `endProxied`: the `end` wrapper is still installed;
      - `reported`: every argument given to `next`, in order;
      - `transport`: every call that reached the original response methods. */
  datatype State = State(
    timeout: int,
    totalTime: int,
    activity: bool,
    pending: Option<Timer>,
    finished: bool,
    endProxied: bool,
    reported: seq<NextArg>,
    transport: seq<SinkCall>)

  /** The message of every timeout error of a request. */
  function Message(r: Request): string {
    "Timeout " + r.verb + " " + r.url
  }

  /** The constructor used when a timer fires: the per-call one if given,
      else the configured default. */
  function ResolveCtor(override: Option<ErrorCtor>, fallback: ErrorCtor): ErrorCtor {
    match override
    case Some(e) => e
    case None => fallback
  }

  /** The pending timer, if any, is the one armed with the stored duration,
      so `getTimeout` reports the duration of the current cycle. */
  ghost predicate Consistent(s: State) {
    s.pending.Some? ==> s.pending.value.duration == s.timeout
  }

  /** The first cycle duration: the upload timeout for a multipart/form-data
      request, the ordinary one otherwise. */
  function InitialTimeout(c: Settings, r: Request): int {
    if r.multipart then c.uploadTimeout else c.timeout
  }

  /** The request's guard when the middleware is entered: the cycle duration
      chosen by content type, nothing accumulated, no activity, the first timer
      armed without an override, and `next` called once with no error. */
  function Init(c: Settings, r: Request): (s: State)
    ensures s.timeout == c.uploadTimeout <== r.multipart
    ensures s.timeout == c.timeout <== !r.multipart
    ensures s.totalTime == 0 && !s.activity && !s.finished && s.endProxied
    ensures s.pending == Some(Timer(s.timeout, None))
    ensures s.reported == [NoError] && s.transport == []
    ensures Consistent(s)
  {
    var timeout := InitialTimeout(c, r);
    var blank := State(timeout, 0, false, None, false, true, [], []);
    var armed := SetTimeout(blank, None, None);
    armed.(reported := armed.reported + [NoError])
  }

  /** `req.clearTimeout()`: cancels the pending timer, if any; safe to repeat. */
  function ClearTimeout(s: State): (t: State)
    ensures t.pending.None?
    ensures t == s.(pending := None)
    ensures Consistent(t)
  {
    s.(pending := None)
  }

  /** `req.setTimeout(newTimeout, errorPrototype)`: a provided duration
      (0 included) replaces the stored one; the previous timer is cancelled and
      exactly one new timer is armed. Activity and the accumulated time are
      left as they were. */
  function SetTimeout(s: State, newTimeout: Option<int>, errorPrototype: Option<ErrorCtor>): (t: State)
    ensures Keeps(newTimeout, t.timeout, s.timeout)
    ensures t.pending == Some(Timer(t.timeout, errorPrototype))
    ensures t == s.(timeout := t.timeout, pending := t.pending)
    ensures Consistent(t)
  {
    var s1 := if newTimeout.Some? then s.(timeout := newTimeout.value) else s;
    var s2 := ClearTimeout(s1);
    s2.(pending := Some(Timer(s2.timeout, errorPrototype)))
  }

  /** `req.getTimeout()`: the stored cycle duration, not the time remaining. */
  function GetTimeout(s: State): (d: int)
    requires Consistent(s)
    ensures s.pending.Some? ==> d == s.pending.value.duration
  {
    s.timeout
  }

  /** The `res.write` wrapper: records activity and forwards the call once;
      it does not look at `finished`. */
  function Write(s: State): (t: State)
    ensures t.activity
    ensures t == s.(activity := true, transport := s.transport + [SinkCall.BodyWritten])
    ensures Consistent(s) ==> Consistent(t)
  {
    s.(activity := true, transport := s.transport + [SinkCall.BodyWritten])
  }

  /** The `res.writeHead` wrapper: the same as `Write`, forwarding to the
      original `writeHead`. */
  function WriteHead(s: State): (t: State)
    ensures t.activity
    ensures t == s.(activity := true, transport := s.transport + [SinkCall.HeadWritten])
    ensures Consistent(s) ==> Consistent(t)
  {
    s.(activity := true, transport := s.transport + [SinkCall.HeadWritten])
  }

  /** `res.end`: while the wrapper is installed it cancels the timer and
      restores the original `end`; the original then finishes the response.
      A second `end` reaches the original directly and leaves the timer alone. */
  function End(s: State): (t: State)
    ensures t.finished && !t.endProxied
    ensures s.endProxied ==> t.pending.None?
    ensures !s.endProxied ==> t.pending == s.pending
    ensures t.transport == s.transport + [SinkCall.Ended]
    ensures t.timeout == s.timeout && t.totalTime == s.totalTime
    ensures t.activity == s.activity && t.reported == s.reported
    ensures Consistent(s) ==> Consistent(t)
  {
    var s1 := if s.endProxied then ClearTimeout(s).(endProxied := false) else s;
    s1.(finished := true, transport := s1.transport + [SinkCall.Ended])
  }

  /** A live fire ends the request's grace: the ceiling is reached by this
      fire, or no write happened during the cycle. */
  predicate GivesUp(c: Settings, s: State) {
    !s.finished && (s.totalTime + s.timeout >= c.maxTimeout || !s.activity)
  }

  /** A live fire re-arms: under the ceiling and with activity. */
  predicate Extends(c: Settings, s: State) {
    !s.finished && s.totalTime + s.timeout < c.maxTimeout && s.activity
  }

  /** The pending timer fires (it is consumed: it was one-shot).
      - After the response finished it does nothing else.
      - Otherwise the duration is added to `totalTime`; then either one
        timeout error is passed to `next` and no timer is left, or activity is
        cleared and the same duration is re-armed with the resolved
        constructor, which is thereby carried into the next cycle. */
  function Fire(c: Settings, r: Request, s: State): (t: State)
    requires s.pending.Some?
    ensures s.finished ==> t == s.(pending := None)
    ensures !s.finished ==> t.totalTime == s.totalTime + s.timeout
    ensures GivesUp(c, s) ==>
      && t.reported == s.reported + [Failure(ResolveCtor(s.pending.value.override, c.errorPrototype), Message(r))]
      && t.pending.None? && t.activity == s.activity
    ensures t.reported != s.reported <==> GivesUp(c, s)
    ensures Extends(c, s) ==>
      && !t.activity
      && t.pending == Some(Timer(s.timeout, Some(ResolveCtor(s.pending.value.override, c.errorPrototype))))
    ensures t.timeout == s.timeout && t.finished == s.finished
    ensures t.endProxied == s.endProxied && t.transport == s.transport
    ensures Consistent(t)
  {
    var override := s.pending.value.override;
    var s0 := s.(pending := None);
    if s0.finished then s0
    else
      var s1 := s0.(totalTime := s0.totalTime + s0.timeout);
      var proto := ResolveCtor(override, c.errorPrototype);
      if s1.totalTime >= c.maxTimeout then
        s1.(reported := s1.reported + [Failure(proto, Message(r))])
      else if !s1.activity then
        s1.(reported := s1.reported + [Failure(proto, Message(r))])
      else
        SetTimeout(s1.(activity := false), Some(s1.timeout), Some(proto))
  }

  /** Everything that can happen to a request's guard after it is set up:
      a call by request-handling code, or the pending timer firing. */
  datatype Event =
    | SetTimeoutCall(newTimeout: Option<int>, errorPrototype: Option<ErrorCtor>)
    | ClearTimeoutCall
    | WriteCall
    | WriteHeadCall
    | EndCall
    | TimerFired

  /** One event; a fire without a pending timer cannot happen and changes nothing. */
  function Step(c: Settings, r: Request, s: State, e: Event): State {
    match e
    case SetTimeoutCall(d, p) => SetTimeout(s, d, p)
    case ClearTimeoutCall => ClearTimeout(s)
    case WriteCall => Write(s)
    case WriteHeadCall => WriteHead(s)
    case EndCall => End(s)
    case TimerFired => if s.pending.Some? then Fire(c, r, s) else s
  }

  /** The state after a sequence of events. */
  function Run(c: Settings, r: Request, s: State, es: seq<Event>): State
    decreases |es|
  {
    if es == [] then s else Run(c, r, Step(c, r, s, es[0]), es[1..])
  }
}
