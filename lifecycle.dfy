/**
 * Properties of the worker over one or several iterations: which messages are
 * consumed on their first claim, how the receive count bounds the retries of
 * a failing job, and what the loop can do to the queue.
 */
module Lifecycle {
  import opened Wrappers
  import opened Json
  import opened Jobs
  import opened Sqs
  import opened Worker

  /** The job's call raises when run with this outcome, so it is not processed before the cap. */
  predicate FailsOn(d: Dispatch, c: Content, outcome: HandlerOutcome)
  {
    Process(d, c, outcome).Settled? && !Process(d, c, outcome).processed
  }

  /**
   * Over any run the queue only loses messages, never changes their content,
   * and never lowers a receive count.
   */
  lemma {:induction false} RunOnlyShrinksQueue(d: Dispatch, m: Store, ticks: seq<Tick>)
    ensures RunOn(d, m, ticks).queue.Keys <= m.Keys
    ensures forall id :: id in RunOn(d, m, ticks).queue ==>
      RunOn(d, m, ticks).queue[id].content == m[id].content &&
      RunOn(d, m, ticks).queue[id].receiveCount >= m[id].receiveCount
    decreases |ticks|
  {
    if ticks != [] {
      var s := StepOn(d, m, ticks[0]);
      if !Stops(s.result) {
        RunOnlyShrinksQueue(d, s.queue, ticks[1..]);
      }
    }
  }

  /** Every iteration delivers `id`, whose content `c` is not processed with that iteration's outcome. */
  predicate KeepsFailing(d: Dispatch, c: Content, id: MessageId, ticks: seq<Tick>)
  {
    forall i :: 0 <= i < |ticks| ==> ticks[i].pick == Some(id) && FailsOn(d, c, ticks[i].outcome)
  }

  lemma KeepsFailingRest(d: Dispatch, c: Content, id: MessageId, ticks: seq<Tick>)
    requires ticks != [] && KeepsFailing(d, c, id, ticks)
    ensures KeepsFailing(d, c, id, ticks[1..])
  {
  }

  lemma UpdateWithSame(m: Store, id: MessageId)
    requires id in m
    ensures m[id := Entry(m[id].content, m[id].receiveCount)] == m
  {
  }

  lemma UpdateTwice(m: Store, id: MessageId, first: Entry, second: Entry)
    ensures m[id := first][id := second] == m[id := second]
  {
  }

  lemma DeleteAfterUpdate(m: Store, id: MessageId, e: Entry)
    ensures m[id := e] - {id} == m - {id}
  {
  }

  /** One delivery of a failing job under the cap: the message is kept and counted once more. */
  lemma FailingDeliveryKept(d: Dispatch, m: Store, id: MessageId, tick: Tick)
    requires id in m && m[id].receiveCount + 1 <= MaxJobRetryAttempts
    requires tick.pick == Some(id) && FailsOn(d, m[id].content, tick.outcome)
    ensures StepOn(d, m, tick).result.Handled?
    ensures StepOn(d, m, tick).result.handle == ReceiptHandle(id, m[id].receiveCount + 1)
    ensures StepOn(d, m, tick).result.verdict == Keep
    ensures StepOn(d, m, tick).queue == m[id := Entry(m[id].content, m[id].receiveCount + 1)]
  {
  }

  /** The delivery of a failing job that takes its count over the cap deletes it. */
  lemma FailingDeliveryDeleted(d: Dispatch, m: Store, id: MessageId, tick: Tick)
    requires id in m && m[id].receiveCount + 1 > MaxJobRetryAttempts
    requires tick.pick == Some(id) && FailsOn(d, m[id].content, tick.outcome)
    ensures StepOn(d, m, tick).result.Handled?
    ensures StepOn(d, m, tick).result.handle == ReceiptHandle(id, m[id].receiveCount + 1)
    ensures StepOn(d, m, tick).result.verdict == Delete
    ensures StepOn(d, m, tick).queue == m - {id}
  {
  }

  /**
   * While its count stays within the cap, a failing job is never deleted: each
   * delivery leaves it on the queue with one more delivery counted.
   */
  lemma {:induction false} FailingJobSurvivesUnderCap(d: Dispatch, m: Store, id: MessageId, ticks: seq<Tick>, c: Content, n: nat)
    requires id in m && m[id] == Entry(c, n)
    requires n + |ticks| <= MaxJobRetryAttempts
    requires KeepsFailing(d, c, id, ticks)
    ensures RunOn(d, m, ticks).queue == m[id := Entry(c, n + |ticks|)]
    decreases |ticks|
  {
    if ticks == [] {
      UpdateWithSame(m, id);
    } else {
      FailingDeliveryKept(d, m, id, ticks[0]);
      KeepsFailingRest(d, c, id, ticks);
      FailingJobSurvivesUnderCap(d, StepOn(d, m, ticks[0]).queue, id, ticks[1..], c, n + 1);
      RunOnContinues(d, m, ticks, StepOn(d, m, ticks[0]).queue, StepOn(d, m, ticks[0]).result);
      UpdateTwice(m, id, Entry(c, n + 1), Entry(c, n + |ticks|));
    }
  }

  /** Under the cap, every delivery of a failing job ends with the message kept. */
  lemma {:induction false} FailingJobKeptUnderCap(d: Dispatch, m: Store, id: MessageId, ticks: seq<Tick>, c: Content, n: nat)
    requires id in m && m[id] == Entry(c, n)
    requires n + |ticks| <= MaxJobRetryAttempts
    requires KeepsFailing(d, c, id, ticks)
    ensures |RunOn(d, m, ticks).results| == |ticks|
    ensures forall i :: 0 <= i < |ticks| ==>
      RunOn(d, m, ticks).results[i].Handled? && RunOn(d, m, ticks).results[i].verdict == Keep
    decreases |ticks|
  {
    if ticks != [] {
      FailingDeliveryKept(d, m, id, ticks[0]);
      KeepsFailingRest(d, c, id, ticks);
      FailingJobKeptUnderCap(d, StepOn(d, m, ticks[0]).queue, id, ticks[1..], c, n + 1);
      RunOnContinues(d, m, ticks, StepOn(d, m, ticks[0]).queue, StepOn(d, m, ticks[0]).result);
    }
  }

  /**
   * A failing job is deleted on the delivery whose count first exceeds the
   * cap, and nothing else on the queue is touched.
   */
  lemma {:induction false} FailingJobExpires(d: Dispatch, m: Store, id: MessageId, ticks: seq<Tick>, c: Content, n: nat)
    requires id in m && m[id] == Entry(c, n)
    requires n <= MaxJobRetryAttempts && |ticks| == MaxJobRetryAttempts + 1 - n
    requires KeepsFailing(d, c, id, ticks)
    ensures RunOn(d, m, ticks).queue == m - {id}
    ensures |RunOn(d, m, ticks).results| == |ticks|
    ensures RunOn(d, m, ticks).results[|ticks| - 1].Handled?
    ensures RunOn(d, m, ticks).results[|ticks| - 1].handle == ReceiptHandle(id, MaxJobRetryAttempts + 1)
    ensures RunOn(d, m, ticks).results[|ticks| - 1].verdict == Delete
    decreases |ticks|
  {
    if |ticks| == 1 {
      FailingDeliveryDeleted(d, m, id, ticks[0]);
      var s := StepOn(d, m, ticks[0]);
      assert RunOn(d, m, ticks) == Trace(s.queue, [s.result]);
    } else {
      FailingDeliveryKept(d, m, id, ticks[0]);
      KeepsFailingRest(d, c, id, ticks);
      FailingJobExpires(d, StepOn(d, m, ticks[0]).queue, id, ticks[1..], c, n + 1);
      RunOnContinues(d, m, ticks, StepOn(d, m, ticks[0]).queue, StepOn(d, m, ticks[0]).result);
      DeleteAfterUpdate(m, id, Entry(c, n + 1));
    }
  }

  /** A job whose call raises on every delivery is still queued after its first five deliveries. */
  lemma AlwaysFailingJobKeptForFiveDeliveries(d: Dispatch, m: Store, id: MessageId, ticks: seq<Tick>)
    requires id in m && m[id].receiveCount == 0
    requires |ticks| == MaxJobRetryAttempts
    requires KeepsFailing(d, m[id].content, id, ticks)
    ensures RunOn(d, m, ticks).queue == m[id := Entry(m[id].content, MaxJobRetryAttempts)]
    ensures |RunOn(d, m, ticks).results| == MaxJobRetryAttempts
    ensures forall i :: 0 <= i < MaxJobRetryAttempts ==>
      RunOn(d, m, ticks).results[i].Handled? && RunOn(d, m, ticks).results[i].verdict == Keep
  {
    FailingJobSurvivesUnderCap(d, m, id, ticks, m[id].content, 0);
    FailingJobKeptUnderCap(d, m, id, ticks, m[id].content, 0);
  }

  /** ... and is deleted on its sixth, the first whose count exceeds the cap. */
  lemma AlwaysFailingJobDeletedOnSixthDelivery(d: Dispatch, m: Store, id: MessageId, ticks: seq<Tick>)
    requires id in m && m[id].receiveCount == 0
    requires |ticks| == MaxJobRetryAttempts + 1
    requires KeepsFailing(d, m[id].content, id, ticks)
    ensures RunOn(d, m, ticks).queue == m - {id}
    ensures |RunOn(d, m, ticks).results| == MaxJobRetryAttempts + 1
    ensures RunOn(d, m, ticks).results[MaxJobRetryAttempts].Handled?
    ensures RunOn(d, m, ticks).results[MaxJobRetryAttempts].handle == ReceiptHandle(id, MaxJobRetryAttempts + 1)
    ensures RunOn(d, m, ticks).results[MaxJobRetryAttempts].verdict == Delete
  {
    FailingJobExpires(d, m, id, ticks, m[id].content, 0);
  }

  /** A message without a `Function` attribute is deleted on its first claim, and no handler runs. */
  lemma MalformedMessageConsumed(d: Dispatch, m: Store, id: MessageId, tick: Tick)
    requires id in m && tick.pick == Some(id)
    requires m[id].content.messageAttributes.Some? && !HasFunction(m[id].content)
    ensures StepOn(d, m, tick)
         == Iteration(m - {id}, Handled(ReceiptHandle(id, m[id].receiveCount + 1), None, Delete))
  {
  }

  /** A job of unknown type is deleted on its first claim, and no handler runs. */
  lemma UnknownJobConsumed(d: Dispatch, m: Store, id: MessageId, tick: Tick)
    requires id in m && tick.pick == Some(id)
    requires FunctionName(m[id].content).Some? && HandlerFor(FunctionName(m[id].content).value).None?
    requires m[id].content.body.Some?
    ensures StepOn(d, m, tick)
         == Iteration(m - {id}, Handled(ReceiptHandle(id, m[id].receiveCount + 1), None, Delete))
  {
  }

  /**
   * A known job whose handler returns is deleted on its first claim, after one
   * call of its handler. The code as written never lets a voter job get that
   * far (see VoterJobRetriedAsWritten).
   */
  lemma SuccessfulJobConsumed(d: Dispatch, m: Store, id: MessageId, tick: Tick)
    requires id in m && tick.pick == Some(id) && tick.outcome == Returns
    requires FunctionName(m[id].content).Some? && HandlerFor(FunctionName(m[id].content).value).Some?
    requires !(d == AsWritten && FunctionName(m[id].content).value == VoterCacheFacebookImagesName)
    requires m[id].content.body.Some?
    requires HasFields(m[id].content.body.value, Arguments(HandlerFor(FunctionName(m[id].content).value).value))
    ensures StepOn(d, m, tick)
         == Iteration(m - {id}, Handled(ReceiptHandle(id, m[id].receiveCount + 1),
                                        HandlerFor(FunctionName(m[id].content).value), Delete))
  {
  }

  /** As written, a voter job with a parsed body is never processed, whatever its handler would do. */
  lemma VoterJobFailsAsWritten(c: Content, outcome: HandlerOutcome)
    requires FunctionName(c) == Some(VoterCacheFacebookImagesName) && c.body.Some?
    ensures FailsOn(AsWritten, c, outcome)
    ensures Process(AsWritten, c, outcome).invoked.None?
  {
  }

  /** As written, no delivery of a voter job with a parsed body ever invokes a handler. */
  lemma {:induction false} VoterJobNeverInvokedAsWritten(m: Store, id: MessageId, ticks: seq<Tick>, c: Content)
    requires FunctionName(c) == Some(VoterCacheFacebookImagesName) && c.body.Some?
    requires id in m ==> m[id].content == c
    requires forall i :: 0 <= i < |ticks| ==> ticks[i].pick == Some(id)
    ensures forall i :: 0 <= i < |RunOn(AsWritten, m, ticks).results| ==>
      RunOn(AsWritten, m, ticks).results[i].Handled? ==> RunOn(AsWritten, m, ticks).results[i].invoked.None?
    decreases |ticks|
  {
    if ticks != [] {
      var s := StepOn(AsWritten, m, ticks[0]);
      if id in m {
        StepOnHandles(AsWritten, m, ticks[0]);
      }
      if Stops(s.result) {
        RunOnStops(AsWritten, m, ticks, s.queue, s.result);
      } else {
        RunOnContinues(AsWritten, m, ticks, s.queue, s.result);
        VoterJobNeverInvokedAsWritten(s.queue, id, ticks[1..], c);
      }
    }
  }

  /**
   * The consequence of the logging fault for the worker: a fresh voter job
   * with a parsed body is kept on each of its first five deliveries and
   * deleted on the sixth, and its handler never runs. With the corrected
   * dispatch the same job, once its handler returns, is deleted on its first
   * delivery (SuccessfulJobConsumed).
   */
  lemma VoterJobRetriedAsWritten(m: Store, id: MessageId, ticks: seq<Tick>)
    requires id in m && m[id].receiveCount == 0
    requires FunctionName(m[id].content) == Some(VoterCacheFacebookImagesName) && m[id].content.body.Some?
    requires |ticks| == MaxJobRetryAttempts + 1
    requires forall i :: 0 <= i < |ticks| ==> ticks[i].pick == Some(id)
    ensures RunOn(AsWritten, m, ticks[..MaxJobRetryAttempts]).queue
         == m[id := Entry(m[id].content, MaxJobRetryAttempts)]
    ensures |RunOn(AsWritten, m, ticks[..MaxJobRetryAttempts]).results| == MaxJobRetryAttempts
    ensures forall i :: 0 <= i < MaxJobRetryAttempts ==>
      RunOn(AsWritten, m, ticks[..MaxJobRetryAttempts]).results[i].Handled? &&
      RunOn(AsWritten, m, ticks[..MaxJobRetryAttempts]).results[i].verdict == Keep
    ensures RunOn(AsWritten, m, ticks).queue == m - {id}
    ensures |RunOn(AsWritten, m, ticks).results| == MaxJobRetryAttempts + 1
    ensures RunOn(AsWritten, m, ticks).results[MaxJobRetryAttempts].Handled?
    ensures RunOn(AsWritten, m, ticks).results[MaxJobRetryAttempts].verdict == Delete
    ensures forall i :: 0 <= i < |ticks| ==>
      RunOn(AsWritten, m, ticks).results[i].Handled? ==> RunOn(AsWritten, m, ticks).results[i].invoked.None?
  {
    var c := m[id].content;
    forall i | 0 <= i < |ticks|
      ensures ticks[i].pick == Some(id) && FailsOn(AsWritten, c, ticks[i].outcome)
    {
      VoterJobFailsAsWritten(c, ticks[i].outcome);
    }
    var prefix := ticks[..MaxJobRetryAttempts];
    assert KeepsFailing(AsWritten, c, id, prefix) by {
      forall i | 0 <= i < |prefix|
        ensures prefix[i].pick == Some(id) && FailsOn(AsWritten, c, prefix[i].outcome)
      {
        assert prefix[i] == ticks[i];
      }
    }
    AlwaysFailingJobKeptForFiveDeliveries(AsWritten, m, id, prefix);
    AlwaysFailingJobDeletedOnSixthDelivery(AsWritten, m, id, ticks);
    VoterJobNeverInvokedAsWritten(m, id, ticks, c);
  }

  /**
   * A message without custom attributes fails at line 105, outside the `try`:
   * the run ends at that iteration and the message, counted once more, stays.
   */
  lemma NoAttributesEndsRun(d: Dispatch, m: Store, id: MessageId, ticks: seq<Tick>)
    requires id in m && ticks != [] && ticks[0].pick == Some(id)
    requires m[id].content.messageAttributes.None?
    ensures RunOn(d, m, ticks).results
         == [Handled(ReceiptHandle(id, m[id].receiveCount + 1), None, Crash(NoMessageAttributes))]
    ensures RunOn(d, m, ticks).queue == m[id := Entry(m[id].content, m[id].receiveCount + 1)]
  {
  }

  /**
   * A processed message is deleted whatever its receive count says, even
   * when the count cannot be read: the count is consulted only otherwise.
   */
  lemma CountIgnoredOnceProcessed(d: Dispatch, m1: Message, m2: Message, outcome: HandlerOutcome)
    requires m1.content == m2.content
    requires Process(d, m1.content, outcome).Settled? && Process(d, m1.content, outcome).processed
    ensures Handle(d, m1, outcome) == Handle(d, m2, outcome)
    ensures Handle(d, m1, outcome).verdict == Delete
  {
  }

  /**
   * A handler that raises never ends the loop: for a message with a string
   * `Function` attribute, a parseable body and a receive count, the iteration
   * keeps or deletes it and the run goes on.
   */
  lemma HandlerErrorIsContained(d: Dispatch, m: Store, id: MessageId, tick: Tick)
    requires id in m && tick.pick == Some(id)
    requires FunctionName(m[id].content).Some? && m[id].content.body.Some?
    ensures StepOn(d, m, tick).result.Handled?
    ensures StepOn(d, m, tick).result.verdict == Delete || StepOn(d, m, tick).result.verdict == Keep
    ensures !Stops(StepOn(d, m, tick).result)
  {
  }

  /**
   * A body that does not parse is read outside the `try`: the exception ends
   * the run at that iteration and the message, now counted once more, stays.
   */
  lemma UnparseableBodyEndsRun(d: Dispatch, m: Store, id: MessageId, ticks: seq<Tick>)
    requires id in m && ticks != [] && ticks[0].pick == Some(id)
    requires FunctionName(m[id].content).Some? && m[id].content.body.None?
    ensures RunOn(d, m, ticks).results
         == [Handled(ReceiptHandle(id, m[id].receiveCount + 1), None, Crash(BodyNotJson))]
    ensures RunOn(d, m, ticks).queue == m[id := Entry(m[id].content, m[id].receiveCount + 1)]
  {
  }
}
