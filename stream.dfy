/**
 * The polling stream itself: the state `IssLocationStream` keeps in its
 * fields, and the operations that update it. The clock, the fetch result
 * and the JSON parser are parameters; a timer firing is a call to `Issue`,
 * and the settling of the request's promise is a call to `Resolve`.
 */
module LocationStream {
  import opened Json
  import opened Settings
  import opened Errors
  import opened Delta

  /** A timer handed out by `makeTimeout`, with the delay it was armed for. */
  datatype Timer = Timer(id: nat, delay: int)

  /** How the request's promise settles: with the response body, or with
      the transport error object. */
  datatype FetchResult = Body(text: string) | Failure(err: Record)

  /** What `JSON.parse` makes of a body: an object, or the thrown error,
      given as its string form. */
  datatype ParseResult = Parsed(obj: Record) | SyntaxError(description: string)

  /** An item pushed to the consumer: an object, or an error string. */
  datatype Item = Obj(fields: Record) | Text(s: string)

  const ParseErrorPrefix := "Error in IssLocationStream.getDataFromSource: "

  class IssLocationStream {
    const props: Props
    const satellite: string
    const interval: int
    const opts: map<string, bool>

    var lag: int
    var reqs: nat
    var resps: nat
    var startReq: Option<int>
    var timer: Option<Timer>
    var paused: bool
    var previousObj: Option<Record>

    /** Every item pushed so far, in order. */
    var pushed: seq<Item>
    /** Number of timers made so far; the next timer's id. */
    var timersMade: nat
    /** The timers handed to `unmakeTimeout`, in order. */
    var cleared: seq<Timer>

    /** Requests issued whose promise has not settled yet. */
    ghost var pending: nat
    /** Requests whose promise has settled. */
    ghost var settled: nat

    ghost predicate Valid()
      reads this
    {
      && props == DefaultProps
      && interval >= props.intervalMin
      && (forall k :: k in opts ==> k in props.supportedOpts)
      && reqs == settled + pending
      && resps <= settled
      && |pushed| == settled
      && (reqs > 0 ==> startReq.Some?)
      && BaselineIsNoError()
      && (timer.Some? ==> timer.value.id < timersMade)
    }

    /** The baseline, once there is one, never carries an error indicator. */
    ghost predicate BaselineIsNoError()
      reads this
    {
      previousObj.Some? ==> !HasErrorIndicator(previousObj.value)
    }

    /** Whether `opts.calculateChange` is set. */
    predicate CalculatesChange()
      reads this
    {
      CalculateChangeOpt in opts && opts[CalculateChangeOpt]
    }

    constructor (id: Option<string>, interval: Option<int>, options: map<string, Value>)
      ensures Valid()
      ensures props == DefaultProps
      ensures satellite == GetSatId(DefaultProps, id)
      ensures this.interval == ResolveInterval(DefaultProps, interval)
      ensures opts == FilteredOptions(DefaultProps.supportedOpts, options)
      ensures lag == 0 && reqs == 0 && resps == 0
      ensures startReq == None && timer == None && !paused && previousObj == None
      ensures pushed == [] && cleared == [] && timersMade == 0
    {
      props := DefaultProps;
      satellite := GetSatId(DefaultProps, id);
      this.interval := ResolveInterval(DefaultProps, interval);
      var o := SetOptions(DefaultProps.supportedOpts, options);
      opts := o;
      lag, reqs, resps := 0, 0, 0;
      startReq, timer, paused, previousObj := None, None, false, None;
      pushed, timersMade, cleared := [], 0, [];
      pending, settled := 0, 0;
    }

    /** `pause`: clears the pending timer, if any, and pauses the stream.
        The `timer` field itself keeps the cleared timer. */
    method Pause()
      requires Valid()
      modifies this`cleared, this`paused
      ensures Valid()
      ensures paused
      ensures cleared == if old(timer).Some? then old(cleared) + [old(timer).value] else old(cleared)
    {
      if timer.Some? {
        cleared := cleared + [timer.value];
      }
      paused := true;
    }

    /** `_read`: arms a timer for `getDataFromSource` after the
        lag-compensated interval, unless the stream is paused. */
    method Read()
      requires Valid()
      modifies this`timer, this`timersMade
      ensures Valid()
      ensures old(paused) ==> timer == old(timer) && timersMade == old(timersMade)
      ensures !old(paused) ==>
        timer == Some(Timer(old(timersMade), AdjustForLag(interval, lag))) &&
        timersMade == old(timersMade) + 1
      ensures !old(paused) && lag >= 0 ==> timer.value.delay <= interval
    {
      if !paused {
        timer := Some(Timer(timersMade, AdjustForLag(interval, lag)));
        timersMade := timersMade + 1;
      }
    }

    /** `calculateChange`: adds the delta fields to a non-error response
        when there is a baseline, and makes the response the new baseline. */
    method CalculateChange(response: Record) returns (r: Record)
      requires Valid()
      modifies this`previousObj
      ensures Valid()
      ensures r == Changed(old(previousObj), response)
      ensures previousObj == NextBaseline(old(previousObj), response)
    {
      r := response;
      if HasErrorIndicator(r) {
        return;
      }
      if previousObj.Some? {
        var prev := previousObj.value;
        var time := Elapsed(prev, r);
        var lonDiff := LonDiffOf(prev, r);
        var latDiff := LatDiffOf(prev, r);
        r := r[LatitudeDelta := Rate(latDiff, time)];
        r := r[LongitudeDelta := Rate(lonDiff, time)];
      }
      BaselineNeverAnError(previousObj, response);
      previousObj := Some(r);
    }

    /** The synchronous part of `getDataFromSource`, run when the timer
        fires: count the request and note when it was issued. */
    method Issue(now: int)
      requires Valid()
      modifies this`reqs, this`startReq, this`pending
      ensures Valid()
      ensures reqs == old(reqs) + 1
      ensures startReq == Some(now)
      ensures pending == old(pending) + 1
    {
      reqs := reqs + 1;
      startReq := Some(now);
      pending := pending + 1;
    }

    /** The continuation of `getDataFromSource` once the request settles;
        `now` is the clock at that moment. */
    method Resolve(result: FetchResult, parse: string -> ParseResult, now: int)
      requires Valid()
      requires pending > 0
      modifies this`resps, this`lag, this`previousObj, this`pushed, this`pending, this`settled
      ensures Valid()
      ensures pending == old(pending) - 1 && settled == old(settled) + 1
      ensures |pushed| == |old(pushed)| + 1 && pushed[..|old(pushed)|] == old(pushed)
      ensures result.Failure? ==>
        pushed[|old(pushed)|] == Obj(HandleError(result.err)) &&
        resps == old(resps) && lag == old(lag) && previousObj == old(previousObj)
      ensures result.Body? && parse(result.text).SyntaxError? ==>
        pushed[|old(pushed)|] == Text(ParseErrorPrefix + parse(result.text).description) &&
        resps == old(resps) && lag == old(lag) && previousObj == old(previousObj)
      ensures result.Body? && parse(result.text).Parsed? ==>
        var obj := HandleError(parse(result.text).obj);
        && resps == old(resps) + 1
        && lag == now - old(startReq).value
        && (CalculatesChange() ==>
              pushed[|old(pushed)|] == Obj(Changed(old(previousObj), obj)) &&
              previousObj == NextBaseline(old(previousObj), obj))
        && (!CalculatesChange() ==>
              pushed[|old(pushed)|] == Obj(obj) && previousObj == old(previousObj))
    {
      match result
      case Failure(err) =>
        pending, settled := pending - 1, settled + 1;
        pushed := pushed + [Obj(HandleError(err))];
      case Body(text) =>
        match parse(text)
        case SyntaxError(description) =>
          pending, settled := pending - 1, settled + 1;
          pushed := pushed + [Text(ParseErrorPrefix + description)];
        case Parsed(obj) =>
          var respObj := HandleError(obj);
          if CalculatesChange() {
            respObj := CalculateChange(respObj);
          }
          pending, settled := pending - 1, settled + 1;
          resps := resps + 1;
          lag := now - startReq.value;
          pushed := pushed + [Obj(respObj)];
    }
  }
}

/**
 * A client of the stream: one poll round as the unit tests drive it, then
 * the lag-compensated re-arm and a pause.
 */
module StreamScenario {
  import opened Json
  import opened Settings
  import opened Errors
  import opened LocationStream

  method ConstructionNormalises()
  {
    var s := new IssLocationStream(Some("12345"), Some(300), map[CalculateChangeOpt := Num(1.0), "verbose" := Bool(true)]);
    assert s.satellite == "25544" && s.interval == 1000;
    assert s.CalculatesChange();
  }

  method OnePollRound()
  {
    var s := new IssLocationStream(None, None, map[CalculateChangeOpt := Bool(true)]);
    assert s.interval == 1000 && s.CalculatesChange();
    s.Read();
    assert s.timer == Some(Timer(0, 1000));
    s.Issue(42);
    var fix := map["timestamp" := Num(5.0), "latitude" := Num(99.0), "longitude" := Num(23.0)];
    assert !HasErrorIndicator(fix) by {
      assert "error" !in fix && "errno" !in fix && "status" !in fix;
    }
    var body := "{\"timestamp\":5,\"latitude\":99,\"longitude\":23}";
    var parse: string -> ParseResult := _ => Parsed(fix);
    assert parse(body) == Parsed(fix) && HandleError(fix) == fix;
    s.Resolve(Body(body), parse, 49);
    assert s.reqs == 1 && s.resps == 1 && s.lag == 7;
    assert s.pushed == [Obj(fix)] && s.previousObj == Some(fix);
    assert !s.paused && s.timersMade == 1 && s.interval == 1000;
    s.Read();
    assert s.timer == Some(Timer(1, 993));
  }

  method PauseDisarms()
  {
    var s := new IssLocationStream(None, Some(750), map[]);
    s.Read();
    assert s.timer == Some(Timer(0, 750));
    s.Pause();
    assert s.cleared == [Timer(0, 750)];
    s.Read();
    assert s.timer == Some(Timer(0, 750)) && s.timersMade == 1;
  }
}
