/**
 * One iteration of `worker_run`: claim at most one message, decide whether it
 * is processed, apply the retry cap on the queue's receive count, and delete
 * the message exactly when it is processed. The pure functions state what an
 * iteration does; the methods Step and Run perform it on a QueueClient, with
 * the local flag `processed` set step by step as the source does. Each takes
 * the `process_request` it calls, so that a worker running the code as
 * written and one running the corrected dispatch can be compared.
 */
module Worker {
  import opened Wrappers
  import opened Json
  import opened Jobs
  import opened Sqs

  /** The visibility timeout requested on every receive, in seconds. */
  const MaxJobProcessingTime: nat := 60
  /** A message not processed is deleted once its receive count exceeds this. */
  const MaxJobRetryAttempts: nat := 5
  /** The long-poll wait requested on every receive, in seconds. */
  const ReceiveWaitTime: nat := 20

  const WorkerRequest: ReceiveRequest := ReceiveRequest(1, MaxJobProcessingTime, ReceiveWaitTime)

  /** An exception raised outside the `try`, which leaves the loop and the worker. */
  datatype Fault =
    | NoMessageAttributes  // `message['MessageAttributes']` on a message without custom attributes
    | NoStringValue        // a binary-typed `Function` attribute, which has no `StringValue`
    | BodyNotJson          // `json.loads` on a body that does not parse
    | NoReceiveCount       // `int(message['Attributes']['ApproximateReceiveCount'])` fails

  /** The value of `processed` before the retry cap, and the handler invoked on the way. */
  datatype Attempt = Settled(invoked: Option<Handler>, processed: bool) | Escaped(fault: Fault)

  /** What becomes of a claimed message. */
  datatype Verdict = Delete | Keep | Crash(fault: Fault)

  datatype Handling = Handling(invoked: Option<Handler>, verdict: Verdict)

  predicate HasFunction(c: Content)
  {
    c.messageAttributes.Some? && "Function" in c.messageAttributes.value
  }

  /** The job's function name, when the `Function` attribute carries a string. */
  function FunctionName(c: Content): Option<string>
  {
    if HasFunction(c) then c.messageAttributes.value["Function"].stringValue else None
  }

  /** Lines 98-99: the message handled in an iteration, if any. */
  function FirstMessage(response: Response): (r: Option<Message>)
    ensures r.None? <==> response.messages.None? || response.messages.value == []
    ensures r.Some? ==> r.value == response.messages.value[0]
  {
    match response.messages
    case None => None
    case Some(ms) => if |ms| > 0 then Some(ms[0]) else None
  }

  /** Lines 101-116: whether the message is processed, before the retry cap. */
  function Process(d: Dispatch, c: Content, outcome: HandlerOutcome): (a: Attempt)
    // a message without a `Function` attribute is processed, and no handler runs
    ensures c.messageAttributes.Some? && !HasFunction(c) ==> a == Settled(None, true)
    // only the job's own function name selects a handler
    ensures a.Settled? && a.invoked.Some? ==> FunctionName(c).Some? && a.invoked == HandlerFor(FunctionName(c).value)
    // an unknown job type is processed, and no handler runs
    ensures FunctionName(c).Some? && HandlerFor(FunctionName(c).value).None? && c.body.Some? ==>
      a == Settled(None, true)
    // only a known job whose call raised is left unprocessed
    ensures a.Settled? && !a.processed ==> FunctionName(c).Some? && HandlerFor(FunctionName(c).value).Some?
    // an invoked handler's exception is caught and leaves the message unprocessed
    ensures a.Settled? && a.invoked.Some? ==> (a.processed <==> outcome == Returns)
    // errors from the handler never escape; only the steps outside the `try` do
    ensures a.Escaped? <==>
      c.messageAttributes.None? || (HasFunction(c) && (FunctionName(c).None? || c.body.None?))
    ensures a == Escaped(BodyNotJson) <==> FunctionName(c).Some? && c.body.None?
    // (which known jobs reach their handler, and what a missing argument does:
    // see ProcessReachesHandler)
  {
    match c.messageAttributes
    case None => Escaped(NoMessageAttributes)
    case Some(attrs) =>
      if "Function" !in attrs then Settled(None, true)
      else
        match attrs["Function"].stringValue
        case None => Escaped(NoStringValue)
        case Some(name) =>
          match c.body
          case None => Escaped(BodyNotJson)
          case Some(body) =>
            var call := ProcessRequestBy(d, name, body, outcome);
            match call.result
            case Returned(v) => Settled(call.invoked, v)
            case Raised => Settled(call.invoked, false)
  }

  /**
   * Which known jobs reach their handler. A body that lacks one of the
   * handler's arguments raises before the handler runs; the exception is
   * caught, so the message is not processed and is retried up to the cap. As
   * written, a voter job with a parsed body is likewise left unprocessed and
   * its handler never runs; every other known job, and every known job under
   * the corrected dispatch, reaches its handler exactly when the body holds
   * the handler's arguments.
   */
  lemma ProcessReachesHandler(d: Dispatch, c: Content, outcome: HandlerOutcome)
    requires FunctionName(c).Some? && HandlerFor(FunctionName(c).value).Some? && c.body.Some?
    ensures !HasFields(c.body.value, Arguments(HandlerFor(FunctionName(c).value).value)) ==>
      Process(d, c, outcome) == Settled(None, false)
    ensures d == AsWritten && FunctionName(c).value == VoterCacheFacebookImagesName ==>
      Process(d, c, outcome) == Settled(None, false)
    ensures !(d == AsWritten && FunctionName(c).value == VoterCacheFacebookImagesName) ==>
      (Process(d, c, outcome).Settled? && Process(d, c, outcome).invoked.Some?
       <==> HasFields(c.body.value, Arguments(HandlerFor(FunctionName(c).value).value)))
  {
  }

  /** Lines 118-131: the retry cap, then delete exactly what is processed. */
  function Expire(processed: bool, receiveCount: Option<int>): (v: Verdict)
    // a processed message is deleted whatever its count, which is not read
    ensures processed ==> v == Delete
    // an unprocessed one is deleted exactly when its count exceeds the cap ...
    ensures !processed ==>
      (v == Delete <==> receiveCount.Some? && receiveCount.value > MaxJobRetryAttempts)
    // ... and otherwise left on the queue, unless the count cannot be read
    ensures !processed ==>
      (v == Keep <==> receiveCount.Some? && receiveCount.value <= MaxJobRetryAttempts)
    ensures v.Crash? ==> v == Crash(NoReceiveCount) && !processed && receiveCount.None?
  {
    if processed then Delete
    else
      match receiveCount
      case None => Crash(NoReceiveCount)
      case Some(n) => if n > MaxJobRetryAttempts then Delete else Keep
  }

  /** Lines 101-131 on one message: the handler invoked and what becomes of the message. */
  function Handle(d: Dispatch, m: Message, outcome: HandlerOutcome): (h: Handling)
    // deleted exactly when processed, or not processed and over the cap
    ensures h.verdict == Delete <==>
      Process(d, m.content, outcome).Settled? &&
      (Process(d, m.content, outcome).processed ||
       (m.receiveCount.Some? && m.receiveCount.value > MaxJobRetryAttempts))
    // kept exactly when it is not processed and within the cap, which only a
    // known job whose call raised can be
    ensures h.verdict == Keep <==>
      && Process(d, m.content, outcome).Settled? && !Process(d, m.content, outcome).processed
      && m.receiveCount.Some? && m.receiveCount.value <= MaxJobRetryAttempts
    ensures h.verdict == Keep ==>
      FunctionName(m.content).Some? && HandlerFor(FunctionName(m.content).value).Some?
    // the loop ends when an exception escapes the `try`, or when the count of
    // an unprocessed message cannot be read
    ensures h.verdict.Crash? <==>
      || Process(d, m.content, outcome).Escaped?
      || (!Process(d, m.content, outcome).processed && m.receiveCount.None?)
    ensures Process(d, m.content, outcome).Escaped? ==>
      h == Handling(None, Crash(Process(d, m.content, outcome).fault))
    // the handler invoked is the one the job's call reached
    ensures Process(d, m.content, outcome).Settled? ==> h.invoked == Process(d, m.content, outcome).invoked
    ensures h.invoked.Some? ==>
      FunctionName(m.content).Some? && h.invoked == HandlerFor(FunctionName(m.content).value)
  {
    match Process(d, m.content, outcome)
    case Escaped(f) => Handling(None, Crash(f))
    case Settled(invoked, processed) => Handling(invoked, Expire(processed, m.receiveCount))
  }

  /** What the queue service and the handlers do in one iteration. */
  datatype Tick = Tick(pick: Option<MessageId>, outcome: HandlerOutcome)

  datatype StepResult =
    | Idle
    | Handled(handle: ReceiptHandle, invoked: Option<Handler>, verdict: Verdict)

  datatype Iteration = Iteration(queue: Store, result: StepResult)

  /** One iteration of the loop on the queue's state. */
  function StepOn(d: Dispatch, m: Store, tick: Tick): (s: Iteration)
    // a message is handled exactly when the queue delivers one
    ensures s.result.Handled? <==> tick.pick.Some? && tick.pick.value in m
    ensures s.result.Idle? ==> s.queue == m
    // the handle is the one issued for this claim
    ensures s.result.Handled? ==>
      s.result.handle == ReceiptHandle(tick.pick.value, m[tick.pick.value].receiveCount + 1)
    // (the handler invoked and the verdict are Handle's: see StepOnHandles)
    // the message is gone exactly when the verdict is to delete it ...
    ensures s.result.Handled? ==> (tick.pick.value !in s.queue <==> s.result.verdict == Delete)
    // ... and otherwise stays, with one more delivery counted
    ensures s.result.Handled? && s.result.verdict != Delete ==>
      s.queue[tick.pick.value] == Entry(m[tick.pick.value].content, m[tick.pick.value].receiveCount + 1)
    // nothing else on the queue changes
    ensures s.queue.Keys <= m.Keys
    ensures forall id :: id in m && Some(id) != tick.pick ==> id in s.queue && s.queue[id] == m[id]
  {
    var receipt := Receive(m, WorkerRequest, tick.pick);
    match FirstMessage(receipt.response)
    case None => Iteration(receipt.queue, Idle)
    case Some(message) =>
      var h := Handle(d, message, tick.outcome);
      var queue := if h.verdict == Delete then Remove(receipt.queue, message.receiptHandle) else receipt.queue;
      Iteration(queue, Handled(message.receiptHandle, h.invoked, h.verdict))
  }

  /** The handler invoked and the verdict of an iteration are Handle's, on the message as delivered. */
  lemma StepOnHandles(d: Dispatch, m: Store, tick: Tick)
    requires tick.pick.Some? && tick.pick.value in m
    ensures StepOn(d, m, tick).result.Handled?
    ensures Handling(StepOn(d, m, tick).result.invoked, StepOn(d, m, tick).result.verdict)
         == Handle(d, Message(ReceiptHandle(tick.pick.value, m[tick.pick.value].receiveCount + 1),
                              m[tick.pick.value].content, Some(m[tick.pick.value].receiveCount + 1)),
                   tick.outcome)
  {
  }

  predicate Stops(r: StepResult)
  {
    r.Handled? && r.verdict.Crash?
  }

  datatype Trace = Trace(queue: Store, results: seq<StepResult>)

  /**
   * The loop run for the given iterations, or until an exception escapes an
   * iteration, which ends `worker_run`.
   */
  function RunOn(d: Dispatch, m: Store, ticks: seq<Tick>): (t: Trace)
    ensures |t.results| <= |ticks|
    // only the last iteration can end in an escaping exception, and the run
    // stops early only because of one
    ensures forall i :: 0 <= i < |t.results| - 1 ==> !Stops(t.results[i])
    ensures |t.results| < |ticks| ==> |t.results| > 0 && Stops(t.results[|t.results| - 1])
    ensures ticks != [] ==> t.results != []
    decreases |ticks|
  {
    if ticks == [] then Trace(m, [])
    else
      var s := StepOn(d, m, ticks[0]);
      if Stops(s.result) then Trace(s.queue, [s.result])
      else
        var rest := RunOn(d, s.queue, ticks[1..]);
        Trace(rest.queue, [s.result] + rest.results)
  }

  /** An iteration that does not end the loop is followed by the run from the state it leaves. */
  lemma RunOnContinues(d: Dispatch, m: Store, ticks: seq<Tick>, queue: Store, r: StepResult)
    requires ticks != [] && StepOn(d, m, ticks[0]) == Iteration(queue, r) && !Stops(r)
    ensures RunOn(d, m, ticks) == Trace(RunOn(d, queue, ticks[1..]).queue, [r] + RunOn(d, queue, ticks[1..]).results)
  {
  }

  /** An iteration that ends the loop is the run's last. */
  lemma RunOnStops(d: Dispatch, m: Store, ticks: seq<Tick>, queue: Store, r: StepResult)
    requires ticks != [] && StepOn(d, m, ticks[0]) == Iteration(queue, r) && Stops(r)
    ensures RunOn(d, m, ticks) == Trace(queue, [r])
  {
  }

  /**
   * The run from `m` is the results so far, this iteration's, and the run from
   * the state it leaves unless it ended the loop.
   */
  lemma RunOnAdvance(d: Dispatch, m: Store, pending: seq<Tick>, queue: Store, r: StepResult,
                     results: seq<StepResult>, whole: Trace)
    requires pending != [] && StepOn(d, m, pending[0]) == Iteration(queue, r)
    requires whole == Trace(RunOn(d, m, pending).queue, results + RunOn(d, m, pending).results)
    ensures Stops(r) ==> whole == Trace(queue, results + [r])
    ensures !Stops(r) ==>
      whole == Trace(RunOn(d, queue, pending[1..]).queue, (results + [r]) + RunOn(d, queue, pending[1..]).results)
  {
    if Stops(r) {
      RunOnStops(d, m, pending, queue, r);
    } else {
      RunOnContinues(d, m, pending, queue, r);
      assert results + ([r] + RunOn(d, queue, pending[1..]).results)
          == (results + [r]) + RunOn(d, queue, pending[1..]).results;
    }
  }

  /** One iteration of `worker_run`, on the client's queue. */
  method Step(d: Dispatch, sqs: QueueClient, tick: Tick) returns (r: StepResult)
    modifies sqs
    ensures Iteration(sqs.messages, r) == StepOn(d, old(sqs.messages), tick)
  {
    var response := sqs.ReceiveMessage(WorkerRequest, tick.pick);
    var first := FirstMessage(response);
    if first.None? {
      return Idle;
    }
    var message := first.value;
    var receiptHandle := message.receiptHandle;
    var processed := false;
    var invoked: Option<Handler> := None;

    if message.content.messageAttributes.None? {
      return Handled(receiptHandle, None, Crash(NoMessageAttributes));
    }
    var attrs := message.content.messageAttributes.value;
    if "Function" in attrs {
      if attrs["Function"].stringValue.None? {
        return Handled(receiptHandle, None, Crash(NoStringValue));
      }
      var functionName := attrs["Function"].stringValue.value;
      if message.content.body.None? {
        return Handled(receiptHandle, None, Crash(BodyNotJson));
      }
      var body := message.content.body.value;
      var call := ProcessRequestBy(d, functionName, body, tick.outcome);
      invoked := call.invoked;
      if call.result.Returned? {
        processed := call.result.value;
      }
    } else {
      processed := true;
    }

    if !processed {
      if message.receiveCount.None? {
        return Handled(receiptHandle, invoked, Crash(NoReceiveCount));
      }
      var jobRetryCount := message.receiveCount.value;
      if jobRetryCount > MaxJobRetryAttempts {
        processed := true;
      }
    }

    if processed {
      sqs.DeleteMessage(receiptHandle);
    }
    r := Handled(receiptHandle, invoked, if processed then Delete else Keep);
  }

  /** `worker_run`'s loop for |ticks| iterations, ending early when an exception escapes. */
  method Run(d: Dispatch, sqs: QueueClient, ticks: seq<Tick>) returns (results: seq<StepResult>)
    modifies sqs
    ensures sqs.messages == RunOn(d, old(sqs.messages), ticks).queue
    ensures results == RunOn(d, old(sqs.messages), ticks).results
  {
    ghost var whole := RunOn(d, sqs.messages, ticks);
    results := [];
    var pending := ticks;
    while pending != []
      invariant whole == Trace(RunOn(d, sqs.messages, pending).queue, results + RunOn(d, sqs.messages, pending).results)
      decreases |pending|
    {
      ghost var before := sqs.messages;
      var r := Step(d, sqs, pending[0]);
      RunOnAdvance(d, before, pending, sqs.messages, r, results, whole);
      results := results + [r];
      if Stops(r) {
        return;
      }
      pending := pending[1..];
    }
  }
}
