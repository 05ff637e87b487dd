/** What holds of every run of a request's guard: the invariants its
    operations keep, that a finished response is never reported as timed out,
    and that continuous activity buys only a bounded number of extra cycles. */
module Properties {
  import opened Config
  import opened Machine

  /** Running two sequences of events one after the other. */
  lemma {:induction false} RunAppend(c: Settings, r: Request, s: State, a: seq<Event>, b: seq<Event>)
    ensures Run(c, r, s, a + b) == Run(c, r, Run(c, r, s, a), b)
    decreases |a|
  {
    if a == [] {
      assert a + b == b;
    } else {
      assert (a + b)[0] == a[0];
      assert (a + b)[1..] == a[1..] + b;
      RunAppend(c, r, Step(c, r, s, a[0]), a[1..], b);
    }
  }

  /** The pending timer, whenever there is one, carries the stored duration. */
  lemma {:induction false} RunKeepsConsistent(c: Settings, r: Request, s: State, es: seq<Event>)
    requires Consistent(s)
    ensures Consistent(Run(c, r, s, es))
    decreases |es|
  {
    if es != [] {
      RunKeepsConsistent(c, r, Step(c, r, s, es[0]), es[1..]);
    }
  }

  /** No call by request-handling code sets a negative duration. */
  predicate NonNegativeDurations(es: seq<Event>) {
    forall i :: 0 <= i < |es| && es[i].SetTimeoutCall? && es[i].newTimeout.Some? ==>
      es[i].newTimeout.value >= 0
  }

  /** `totalTime` is never reset and, with non-negative durations, never
      decreases. */
  lemma {:induction false} RunTotalTimeGrows(c: Settings, r: Request, s: State, es: seq<Event>)
    requires s.timeout >= 0 && NonNegativeDurations(es)
    ensures Run(c, r, s, es).totalTime >= s.totalTime
    ensures Run(c, r, s, es).timeout >= 0
    decreases |es|
  {
    if es != [] {
      assert NonNegativeDurations(es[1..]) by {
        forall i | 0 <= i < |es[1..]| ensures es[1..][i] == es[i + 1] { }
      }
      assert es[0].SetTimeoutCall? && es[0].newTimeout.Some? ==> es[0].newTimeout.value >= 0;
      RunTotalTimeGrows(c, r, Step(c, r, s, es[0]), es[1..]);
    }
  }

  /** Only the automatic re-arm of a live fire clears the activity flag:
      neither `setTimeout`, `clearTimeout` nor `end` does. */
  lemma ActivityClearedOnlyByReArm(c: Settings, r: Request, s: State, e: Event)
    requires s.activity && !Step(c, r, s, e).activity
    ensures e.TimerFired? && s.pending.Some? && Extends(c, s)
  {
  }

  /** Once the response has finished it stays finished, no timeout error is
      ever passed to `next`, and no time is accumulated, whatever happens
      next (even a `setTimeout` call and its fire). */
  lemma {:induction false} FinishedAbsorbs(c: Settings, r: Request, s: State, es: seq<Event>)
    requires s.finished
    ensures Run(c, r, s, es).finished
    ensures Run(c, r, s, es).reported == s.reported
    ensures Run(c, r, s, es).totalTime == s.totalTime
    decreases |es|
  {
    if es != [] {
      FinishedAbsorbs(c, r, Step(c, r, s, es[0]), es[1..]);
    }
  }

  /** Ending the response disarms the first time and silences the guard for
      good: nothing that follows, fires included, reports a timeout. */
  lemma EndSilences(c: Settings, r: Request, s: State, es: seq<Event>)
    ensures s.endProxied ==> Step(c, r, s, EndCall).pending.None?
    ensures Run(c, r, s, [EndCall] + es).reported == s.reported
  {
    assert ([EndCall] + es)[0] == EndCall && ([EndCall] + es)[1..] == es;
    FinishedAbsorbs(c, r, End(s), es);
  }

  /** A request whose handler writes once in every cycle. */
  function Busy(n: nat): seq<Event> {
    if n == 0 then [] else [WriteCall, TimerFired] + Busy(n - 1)
  }

  lemma {:induction false} BusySnoc(n: nat)
    ensures Busy(n + 1) == Busy(n) + [WriteCall, TimerFired]
  {
    if n > 0 {
      BusySnoc(n - 1);
    }
  }

  /** One busy cycle: a write, then the fire. */
  lemma RunBusyStep(c: Settings, r: Request, s: State, n: nat)
    requires n > 0
    ensures Run(c, r, s, Busy(n)) == Run(c, r, Step(c, r, Step(c, r, s, WriteCall), TimerFired), Busy(n - 1))
  {
    var es := Busy(n);
    assert es[0] == WriteCall && es[1..][0] == TimerFired && es[1..][1..] == Busy(n - 1);
  }

  /** A timer is armed and will do real work when it fires. */
  ghost predicate Live(s: State) {
    s.pending.Some? && !s.finished && Consistent(s)
  }

  /** The error constructor a fire of the pending timer would use. */
  function CtorOf(c: Settings, s: State): ErrorCtor
    requires s.pending.Some?
  {
    ResolveCtor(s.pending.value.override, c.errorPrototype)
  }

  /** While each busy cycle keeps the accumulated time under the ceiling, the
      guard re-arms with the same duration and the same error constructor and
      reports nothing. */
  lemma {:induction false} BusyUnderCeiling(c: Settings, r: Request, s: State, n: nat)
    requires Live(s) && s.timeout >= 0
    requires n == 0 || s.totalTime + n * s.timeout < c.maxTimeout
    ensures Live(Run(c, r, s, Busy(n)))
    ensures Run(c, r, s, Busy(n)).reported == s.reported
    ensures Run(c, r, s, Busy(n)).totalTime == s.totalTime + n * s.timeout
    ensures Run(c, r, s, Busy(n)).timeout == s.timeout
    ensures CtorOf(c, Run(c, r, s, Busy(n))) == CtorOf(c, s)
    decreases n
  {
    if n > 0 {
      var s1 := Step(c, r, Step(c, r, s, WriteCall), TimerFired);
      MulMonotone(1, n, s.timeout);
      assert Extends(c, Write(s));
      assert (n - 1) * s.timeout + s.timeout == n * s.timeout;
      RunBusyStep(c, r, s, n);
      BusyUnderCeiling(c, r, s1, n - 1);
    }
  }

  /** The busy cycle in which the accumulated time reaches the ceiling reports
      exactly one timeout error, with the constructor carried over from the
      first cycle, and leaves no timer pending, although a write happened. */
  lemma ReachesCeiling(c: Settings, r: Request, s: State, n: nat)
    requires Live(s) && s.timeout >= 0 && n >= 1
    requires n == 1 || s.totalTime + (n - 1) * s.timeout < c.maxTimeout
    requires c.maxTimeout <= s.totalTime + n * s.timeout
    ensures Run(c, r, s, Busy(n)).pending.None?
    ensures Run(c, r, s, Busy(n)).reported == s.reported + [Failure(CtorOf(c, s), Message(r))]
  {
    BusyUnderCeiling(c, r, s, n - 1);
    var t := Run(c, r, s, Busy(n - 1));
    assert (n - 1) * s.timeout + s.timeout == n * s.timeout;
    BusySnoc(n - 1);
    RunAppend(c, r, s, Busy(n - 1), [WriteCall, TimerFired]);
    assert GivesUp(c, Write(t));
    var ws: seq<Event> := [WriteCall, TimerFired];
    assert ws[0] == WriteCall && ws[1..][0] == TimerFired && ws[1..][1..] == [];
  }

  /** `a / b` rounded up. */
  function CeilDiv(a: int, b: int): int
    requires a > 0 && b > 0
  {
    (a + b - 1) / b
  }

  lemma CeilDivBounds(a: int, b: int)
    requires a > 0 && b > 0
    ensures CeilDiv(a, b) >= 1
    ensures (CeilDiv(a, b) - 1) * b < a <= CeilDiv(a, b) * b
  {
    var q, m := (a + b - 1) / b, (a + b - 1) % b;
    assert a + b - 1 == q * b + m && 0 <= m < b;
    assert (q - 1) * b == q * b - b;
  }

  /** How many busy fires a live guard with a positive duration still grants,
      the last one included: the first fire whose accumulated time reaches
      the ceiling. */
  function FiresLeft(c: Settings, s: State): (k: int)
    requires s.timeout > 0
    ensures k >= 1
  {
    if s.totalTime + s.timeout >= c.maxTimeout then 1 else
      CeilDivBounds(c.maxTimeout - s.totalTime, s.timeout);
      CeilDiv(c.maxTimeout - s.totalTime, s.timeout)
  }

  /** Multiplying by a non-negative duration keeps the order. */
  lemma MulMonotone(n: int, m: int, d: int)
    requires n <= m && d >= 0
    ensures n * d <= m * d
  {
    assert m * d - n * d == (m - n) * d;
  }

  /** Before its last granted fire a busy request is never reported. */
  lemma BusyBeforeBound(c: Settings, r: Request, s: State, n: nat)
    requires Live(s) && s.timeout > 0 && n < FiresLeft(c, s)
    ensures Run(c, r, s, Busy(n)).reported == s.reported
    ensures Run(c, r, s, Busy(n)).pending.Some?
  {
    if n > 0 {
      var a := c.maxTimeout - s.totalTime;
      assert s.totalTime + s.timeout < c.maxTimeout;
      var k := CeilDiv(a, s.timeout);
      assert FiresLeft(c, s) == k;
      CeilDivBounds(a, s.timeout);
      MulMonotone(n, k - 1, s.timeout);
      BusyUnderCeiling(c, r, s, n);
    }
  }

  /** Continuous activity ends: the last granted fire reports the timeout. */
  lemma BusyFailsAtBound(c: Settings, r: Request, s: State)
    requires Live(s) && s.timeout > 0
    ensures Run(c, r, s, Busy(FiresLeft(c, s))).pending.None?
    ensures Run(c, r, s, Busy(FiresLeft(c, s))).reported == s.reported + [Failure(CtorOf(c, s), Message(r))]
  {
    var k := FiresLeft(c, s);
    if k > 1 {
      CeilDivBounds(c.maxTimeout - s.totalTime, s.timeout);
    }
    ReachesCeiling(c, r, s, k);
  }

  /** With a zero duration the ceiling is never reached: each fire adds
      nothing to the total, so a request that writes in every cycle is
      re-armed for ever and never reported. */
  lemma ZeroDurationNeverCeilings(c: Settings, r: Request, s: State, n: nat)
    requires Live(s) && s.timeout == 0 && s.totalTime < c.maxTimeout
    ensures Live(Run(c, r, s, Busy(n)))
    ensures Run(c, r, s, Busy(n)).reported == s.reported
    ensures Run(c, r, s, Busy(n)).totalTime == s.totalTime
  {
    BusyUnderCeiling(c, r, s, n);
  }

  /** For a fresh request with a positive duration and ceiling, the number of
      granted fires is ceil(maxTimeout / duration). */
  lemma InitFiresLeft(c: Settings, r: Request)
    requires Init(c, r).timeout > 0 && c.maxTimeout > 0
    ensures FiresLeft(c, Init(c, r)) == CeilDiv(c.maxTimeout, Init(c, r).timeout)
  {
    var t := Init(c, r).timeout;
    CeilDivBounds(c.maxTimeout, t);
    if t >= c.maxTimeout {
      assert CeilDiv(c.maxTimeout, t) * t < 2 * t;
    }
  }

  /** Request-handling code never calls `setTimeout` during the run; every
      other call and every fire may occur, in any order. */
  predicate NoUserReArm(es: seq<Event>) {
    forall i :: 0 <= i < |es| ==> !es[i].SetTimeoutCall?
  }

  lemma NoUserReArmTail(es: seq<Event>)
    requires es != [] && NoUserReArm(es)
    ensures !es[0].SetTimeoutCall? && NoUserReArm(es[1..])
  {
    forall i | 0 <= i < |es[1..]| ensures es[1..][i] == es[i + 1] { }
  }

  /** The limit on total time of a request whose code does not re-arm the
      timer itself. While a timer is pending the total is under the ceiling,
      and the total never reaches the ceiling plus one cycle, whatever the mix
      of writes, header writes, `clearTimeout`, `end` and fires. */
  lemma {:induction false} RunTotalTimeBounded(c: Settings, r: Request, s: State, es: seq<Event>)
    requires Consistent(s) && NoUserReArm(es)
    requires s.pending.Some? ==> s.totalTime < c.maxTimeout
    requires s.totalTime < c.maxTimeout + s.timeout
    ensures Run(c, r, s, es).timeout == s.timeout
    ensures Run(c, r, s, es).pending.Some? ==> Run(c, r, s, es).totalTime < c.maxTimeout
    ensures Run(c, r, s, es).totalTime < c.maxTimeout + s.timeout
    decreases |es|
  {
    if es != [] {
      NoUserReArmTail(es);
      var t := Step(c, r, s, es[0]);
      assert Consistent(t) && t.timeout == s.timeout;
      assert t.pending.Some? ==> t.totalTime < c.maxTimeout;
      assert t.totalTime < c.maxTimeout + s.timeout;
      RunTotalTimeBounded(c, r, t, es[1..]);
    }
  }

  /** A fresh request with a positive ceiling and a non-negative duration,
      whose code does not call `setTimeout`, never accumulates a full cycle
      beyond `maxTimeout`. */
  lemma InitTotalTimeBounded(c: Settings, r: Request, es: seq<Event>)
    requires NoUserReArm(es) && 0 < c.maxTimeout && Init(c, r).timeout >= 0
    ensures Run(c, r, Init(c, r), es).totalTime < c.maxTimeout + Init(c, r).timeout
  {
    RunTotalTimeBounded(c, r, Init(c, r), es);
  }

  /** After the guard has given up, nothing the request does short of calling
      `setTimeout` produces another report: there is no timer left to fire. */
  lemma {:induction false} NoSecondReport(c: Settings, r: Request, s: State, es: seq<Event>)
    requires s.pending.None? && NoUserReArm(es)
    ensures Run(c, r, s, es).reported == s.reported
    ensures Run(c, r, s, es).pending.None?
    decreases |es|
  {
    if es != [] {
      NoUserReArmTail(es);
      NoSecondReport(c, r, Step(c, r, s, es[0]), es[1..]);
    }
  }
}
