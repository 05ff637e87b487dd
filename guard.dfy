/** The middleware's per-request closure as an object: its fields are the
    closure variables and what it observes of the response, its methods are the
    functions attached to the request, the response wrappers and the timer
    callback. Each method is specified by the transition of the same name in
    module Machine, through `Snapshot()`. */
module RequestTimeout {
  import opened Config
  import opened Machine

  class Guard {
    /** The defaulted options, shared by all requests. */
    const config: Settings
    /** The request this guard belongs to. */
    const request: Request

    var timeout: int
    var totalTime: int
    var activity: bool
    var pending: Option<Timer>
    var finished: bool
    var endProxied: bool
    var reported: seq<NextArg>
    var transport: seq<SinkCall>

    /** The guard's state as a value. */
    function Snapshot(): State
      reads this
    {
      State(timeout, totalTime, activity, pending, finished, endProxied, reported, transport)
    }

    ghost predicate Valid()
      reads this
    {
      Consistent(Snapshot())
    }

    /** Entering the middleware: choose the cycle duration, install the
        wrappers, arm the first timer and call `next()` with no error. */
    constructor Init(config: Settings, request: Request)
      ensures this.config == config && this.request == request
      ensures Valid()
      ensures Snapshot() == Machine.Init(config, request)
    {
      this.config := config;
      this.request := request;
      timeout := InitialTimeout(config, request);
      totalTime := 0;
      activity := false;
      pending := None;
      finished := false;
      endProxied := true;
      reported := [];
      transport := [];
      new;
      SetTimeout(None, None);
      reported := reported + [NoError];
    }

    /** `req.setTimeout(newTimeout, errorPrototype)`. */
    method SetTimeout(newTimeout: Option<int>, errorPrototype: Option<ErrorCtor>)
      modifies this`timeout, this`pending
      ensures Valid()
      ensures Snapshot() == Machine.SetTimeout(old(Snapshot()), newTimeout, errorPrototype)
      ensures pending == Some(Timer(timeout, errorPrototype))
    {
      if newTimeout.Some? {
        timeout := newTimeout.value;
      }
      ClearTimeout();
      pending := Some(Timer(timeout, errorPrototype));
    }

    /** `req.clearTimeout()`. */
    method ClearTimeout()
      modifies this`pending
      ensures pending.None?
      ensures Snapshot() == Machine.ClearTimeout(old(Snapshot()))
    {
      pending := None;
    }

    /** `req.getTimeout()`: the duration of the current cycle. */
    method GetTimeout() returns (d: int)
      requires Valid()
      ensures d == Machine.GetTimeout(Snapshot())
      ensures pending.Some? ==> d == pending.value.duration
    {
      d := timeout;
    }

    /** The `res.write` wrapper. */
    method Write()
      requires Valid()
      modifies this`activity, this`transport
      ensures Valid() && activity
      ensures Snapshot() == Machine.Write(old(Snapshot()))
    {
      activity := true;
      transport := transport + [SinkCall.BodyWritten];
    }

    /** The `res.writeHead` wrapper. */
    method WriteHead()
      requires Valid()
      modifies this`activity, this`transport
      ensures Valid() && activity
      ensures Snapshot() == Machine.WriteHead(old(Snapshot()))
    {
      activity := true;
      transport := transport + [SinkCall.HeadWritten];
    }

    /** `res.end`: the wrapper (while installed) clears the timer and puts the
        original back; the original finishes the response. */
    method End()
      requires Valid()
      modifies this`pending, this`endProxied, this`finished, this`transport
      ensures Valid() && finished
      ensures old(endProxied) ==> pending.None?
      ensures Snapshot() == Machine.End(old(Snapshot()))
    {
      if endProxied {
        ClearTimeout();
        endProxied := false;
      }
      finished := true;
      transport := transport + [SinkCall.Ended];
    }

    /** The timer callback; the pending timer is consumed by firing. */
    method Fire()
      requires Valid() && pending.Some?
      modifies this`pending, this`totalTime, this`activity, this`reported, this`timeout
      ensures Valid()
      ensures Snapshot() == Machine.Fire(config, request, old(Snapshot()))
      ensures old(finished) ==> reported == old(reported) && totalTime == old(totalTime)
    {
      var errorPrototype := pending.value.override;
      pending := None;
      if finished {
        return;
      }
      totalTime := totalTime + timeout;
      var proto := ResolveCtor(errorPrototype, config.errorPrototype);
      if totalTime >= config.maxTimeout {
        reported := reported + [Failure(proto, Message(request))];
      } else if !activity {
        reported := reported + [Failure(proto, Message(request))];
      } else {
        activity := false;
        SetTimeout(Some(timeout), Some(proto));
      }
    }
  }
}
