/** Concrete request lifecycles driven through the `Guard` object, using only
    the contracts of its methods. */
module Scenarios {
  import opened Config
  import opened Machine
  import opened RequestTimeout

  /** `timeout` 100 ms and `maxTimeout` 250 ms, the rest left to defaults. */
  function Short(maxTimeout: int): Settings {
    Configure(Some(RawOptions(Some(100), None, Some(maxTimeout), None)))
  }

  const GetX := Request("GET", "/x", false)

  lemma GetXMessage()
    ensures Message(GetX) == "Timeout GET /x"
  {
    assert "Timeout " + "GET" + " " + "/x" == "Timeout GET /x";
  }

  /** No activity ever: the first fire reports once and leaves no timer, so
      there is no second report. */
  method IdleRequest() returns (reported: seq<NextArg>, armed: bool)
    ensures reported == [NoError, Failure(Error, "Timeout GET /x")]
    ensures !armed
  {
    var g := new Guard.Init(Short(250), GetX);
    GetXMessage();
    g.Fire();
    reported, armed := g.reported, g.pending.Some?;
  }

  /** A write in each of the first two cycles: 100 + 100 < 250, so both fires
      re-arm; the third fire reports. */
  method WritesThenIdle() returns (afterTwo: seq<NextArg>, reported: seq<NextArg>, total: int)
    ensures afterTwo == [NoError]
    ensures reported == [NoError, Failure(Error, "Timeout GET /x")]
    ensures total == 300
  {
    var g := new Guard.Init(Short(250), GetX);
    g.Write();
    g.Fire();
    g.WriteHead();
    g.Fire();
    afterTwo := g.reported;
    GetXMessage();
    g.Fire();
    reported, total := g.reported, g.totalTime;
  }

  /** `maxTimeout` 150 ms and a write in every cycle: the second fire reaches
      the ceiling and reports although the request was active. */
  method ActiveUntilCeiling() returns (reported: seq<NextArg>, activeAtLastFire: bool)
    ensures reported == [NoError, Failure(Error, "Timeout GET /x")]
    ensures activeAtLastFire
  {
    var g := new Guard.Init(Short(150), GetX);
    g.Write();
    g.Fire();
    g.Write();
    activeAtLastFire := g.activity;
    GetXMessage();
    g.Fire();
    reported := g.reported;
  }

  /** Ending before the timer fires cancels it; ending or clearing again
      changes nothing, and no error is reported. */
  method EndBeforeTimeout() returns (reported: seq<NextArg>, armed: bool, finished: bool)
    ensures reported == [NoError] && !armed && finished
  {
    var g := new Guard.Init(Short(250), GetX);
    g.Write();
    g.End();
    g.End();
    g.ClearTimeout();
    g.ClearTimeout();
    reported, armed, finished := g.reported, g.pending.Some?, g.finished;
  }

  /** `setTimeout` after `end` still arms a timer, but its fire finds the
      response finished and reports nothing. */
  method ArmAfterEnd() returns (armedAfterEnd: bool, reported: seq<NextArg>, total: int)
    ensures armedAfterEnd
    ensures reported == [NoError] && total == 0
  {
    var g := new Guard.Init(Short(250), GetX);
    g.End();
    g.SetTimeout(None, None);
    armedAfterEnd := g.pending.Some?;
    g.Fire();
    reported, total := g.reported, g.totalTime;
  }

  /** An upload starts with the upload duration; an explicit 0 passed to
      `setTimeout` is kept, and the custom constructor is the one reported. */
  method UploadThenZero() returns (initial: int, zero: int, reported: seq<NextArg>)
    ensures initial == DEFAULT_UPLOAD_TIMEOUT && zero == 0
    ensures reported == [NoError, Failure(Custom("Fatal"), "Timeout POST /up")]
  {
    var g := new Guard.Init(Configure(None), Request("POST", "/up", true));
    initial := g.GetTimeout();
    g.SetTimeout(Some(0), Some(Custom("Fatal")));
    zero := g.GetTimeout();
    assert Message(g.request) == "Timeout POST /up" by {
      assert "Timeout " + "POST" + " " + "/up" == "Timeout POST /up";
    }
    g.Fire();
    reported := g.reported;
  }
}
