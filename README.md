# SQS job worker: lifecycle model

This project models the job worker of `aws/management/commands/runsqsworker.py`. The worker is a loop that
claims at most one message per iteration from an SQS queue and reads the message's `Function` attribute.
It dispatches the job to one of two named handlers (`process_request`) and decides whether the message
is *processed*. If the message is not processed and SQS's `ApproximateReceiveCount` exceeds
`MAX_JOB_RETRY_ATTEMPTS` (5), the worker forces `processed` to true. It deletes the message exactly when
`processed` is true.

The model is split into these modules:

- `Jobs` (`jobs.dfy`): `process_request` as a pure function of the function name, the parsed body and
  the handler's opaque outcome (returns or raises). It models the argument lookups each branch makes on
  the body before calling its handler, so a missing argument raises before any handler runs. There are
  two versions: `ProcessRequestAsWritten`, the code as it stands, and `ProcessRequest`, with the faulty
  log statement of the voter branch corrected (see Findings). `Dispatch` names one of the two.
- `Sqs` (`sqs.dfy`): the queue service as a map from message id to stored message and receive count.
  - `Receive` and `Remove` (the effect of `delete_message`) are pure functions.
  - `QueueClient` is a class whose `ReceiveMessage`/`DeleteMessage` update that map in place.
  - A receipt handle names one claim of one message.
- `Worker` (`worker.dfy`): the per-message body of `worker_run`. Every function and method takes the
  `Dispatch` the worker calls, so each property is stated either for both versions or for the one it
  holds of.
  - Pure functions state what an iteration does: `FirstMessage`, `Process` (lines 101-116), `Expire`
    (the retry cap and the delete decision), `Handle`, `StepOn`, and `RunOn` for a bounded number of
    iterations.
  - The methods `Step` and `Run` perform the iteration on a `QueueClient`. `Step` sets the local flag
    `processed` step by step as the source does. Both are proved against `StepOn`/`RunOn`.
  - An exception raised outside the `try` is a `Crash` verdict, which ends the run. These are: a missing
    `MessageAttributes` map, a `Function` attribute without `StringValue`, a body that is not JSON, and an
    unreadable receive count.
- `Lifecycle` (`lifecycle.dfy`): properties over one or several iterations.
- `Json` and `Wrappers`: the parsed body and `Option`.

The model follows the code in three places where its behaviour is easy to misread:
- A body that does not parse raises at line 108, before the `try`, so it ends the worker. It is not
  deleted. It stays on the queue, and each later delivery ends the worker that receives it; the retry
  cap is never consulted.
- A handler's own return value is ignored: `process_request` returns `True` whenever the handler returns.
- Dispatch is a closed two-way `if`/`elif` on the function name, not a registry.

## Model

| member | source | states |
|---|---|---|
| Jobs.HandlerFor | aws/management/commands/runsqsworker.py:44-68 | exactly the two registered names select a handler; every other name selects none |
| Jobs.ProcessRequest | aws/management/commands/runsqsworker.py:42-73 | returns True whenever it does not raise. An unknown name invokes no handler and returns True. A known name reaches its own handler exactly when the body holds that handler's arguments, and raises otherwise. An invoked handler's exception propagates. Its normal return yields True. (Logging corrected; see Findings.) |
| Jobs.ProcessRequestAsWritten | aws/management/commands/runsqsworker.py:60-67 | as written, the `voter_cache_facebook_images_process` branch raises for every body without invoking its handler; every other name behaves as in ProcessRequest |
| Jobs.VoterJobNeverReachesHandler | aws/management/commands/runsqsworker.py:64-67 | for a well-formed voter job whose handler would succeed, the code as written raises with no handler call. The corrected dispatch calls the handler and returns True. |
| Sqs.Receive | aws/management/commands/runsqsworker.py:89-96 | delivers at most the requested number of messages (here one), with stored content, incremented receive count and a handle for this claim. Exactly the delivered message's count rises by one. Nothing is added or removed. |
| Sqs.Remove | aws/management/commands/runsqsworker.py:127-130 | removes exactly the message the handle names and leaves every other message unchanged |
| Sqs.RemoveIsIdempotent | aws/management/commands/runsqsworker.py:127-130 | deleting the same handle twice is the same as deleting it once |
| Sqs.QueueClient.constructor | aws/management/commands/runsqsworker.py:85 | the client starts on the given queue state |
| Sqs.QueueClient.ReceiveMessage | aws/management/commands/runsqsworker.py:89-96 | updates the queue in place as Receive states and returns its response |
| Sqs.QueueClient.DeleteMessage | aws/management/commands/runsqsworker.py:127-130 | updates the queue in place as Remove states |
| Worker.FirstMessage | aws/management/commands/runsqsworker.py:98-99 | an absent or empty `Messages` list yields no message; otherwise the message at index 0 |
| Worker.Process | aws/management/commands/runsqsworker.py:101-116 | no `Function` attribute: processed, no handler. Unknown job type: processed, no handler. Only a known job whose call raised is left unprocessed. A handler exception leaves it unprocessed and never escapes. Only the steps outside the `try` escape, such as a body that does not parse. What a missing handler argument does is stated by ProcessReachesHandler. |
| Worker.ProcessReachesHandler | aws/management/commands/runsqsworker.py:42-67 | a known job whose body lacks one of its handler's arguments raises before the handler runs and is left unprocessed, with no handler call. As written, a voter job with a parsed body is left unprocessed with no handler call. Every other known job, and every known job under the corrected dispatch, reaches its handler exactly when the body holds the handler's arguments. |
| Worker.Expire | aws/management/commands/runsqsworker.py:118-131 | processed: deleted, count not read. Not processed: deleted exactly when the count exceeds 5 (strictly), kept when it is at most 5, escapes when the count cannot be read. |
| Worker.Handle | aws/management/commands/runsqsworker.py:101-131 | deleted iff processed, or unprocessed with a count above the cap. Kept iff unprocessed with a count within the cap, which only a known job whose call raised can be. Ends the loop iff an exception escapes the `try` or the count of an unprocessed message cannot be read. The handler reported is the one the call reached. |
| Worker.StepOn | aws/management/commands/runsqsworker.py:87-131 | a message is handled exactly when the queue delivers one. The handle is this claim's. The message is gone exactly when the verdict is to delete it; otherwise it stays with one more delivery counted. Nothing else on the queue changes. |
| Worker.StepOnHandles | aws/management/commands/runsqsworker.py:98-131 | the handler invoked and the verdict of an iteration that receives a message are Handle's, on the message as delivered with its raised count and this claim's handle |
| Worker.RunOn | aws/management/commands/runsqsworker.py:87-131 | runs at most the given iterations; only the last can end in an escaping exception, and the run stops early only because of one |
| Worker.Step | aws/management/commands/runsqsworker.py:98-131 | one iteration, the `processed` flag set step by step, changes the client's queue and returns the result exactly as StepOn states |
| Worker.Run | aws/management/commands/runsqsworker.py:87-131 | the loop, run for the given iterations or until an exception escapes, leaves the queue and the results exactly as RunOn states |
| Lifecycle.RunOnlyShrinksQueue | aws/management/commands/runsqsworker.py:87-131 | over any run the queue only loses messages. Content never changes. Receive counts never decrease. |
| Lifecycle.FailingDeliveryKept | aws/management/commands/runsqsworker.py:119-123 | a delivery of a failing job whose new count is at most 5 keeps it, counted once more |
| Lifecycle.FailingDeliveryDeleted | aws/management/commands/runsqsworker.py:119-130 | the delivery of a failing job whose new count exceeds 5 deletes it with that claim's handle |
| Lifecycle.FailingJobSurvivesUnderCap | aws/management/commands/runsqsworker.py:119-123 | under the cap, repeated failing deliveries leave the job queued, its count raised by the number of deliveries and everything else unchanged |
| Lifecycle.FailingJobKeptUnderCap | aws/management/commands/runsqsworker.py:119-123 | under the cap, each failing delivery ends with the message kept |
| Lifecycle.FailingJobExpires | aws/management/commands/runsqsworker.py:119-130 | a failing job is deleted exactly on the delivery whose count first exceeds 5, with that claim's handle, and nothing else is removed |
| Lifecycle.AlwaysFailingJobKeptForFiveDeliveries | aws/management/commands/runsqsworker.py:119-123 | a fresh job that always fails is still queued after five deliveries, each of them kept |
| Lifecycle.AlwaysFailingJobDeletedOnSixthDelivery | aws/management/commands/runsqsworker.py:119-130 | a fresh job that always fails is deleted on its sixth delivery |
| Lifecycle.MalformedMessageConsumed | aws/management/commands/runsqsworker.py:114-116 | a message without a `Function` attribute is deleted on its first claim and no handler runs |
| Lifecycle.UnknownJobConsumed | aws/management/commands/runsqsworker.py:68-73 | a job of unknown type is deleted on its first claim and no handler runs |
| Lifecycle.SuccessfulJobConsumed | aws/management/commands/runsqsworker.py:109-110 | a known job whose handler returns is deleted on its first claim after one call of its handler; as written this holds of the caching job only, the voter job being covered by VoterJobRetriedAsWritten |
| Lifecycle.VoterJobFailsAsWritten | aws/management/commands/runsqsworker.py:62-67 | as written, a voter job with a parsed body is left unprocessed with no handler call, whatever the handler would do |
| Lifecycle.VoterJobNeverInvokedAsWritten | aws/management/commands/runsqsworker.py:62-67 | as written, no delivery of such a job, over any run, invokes a handler |
| Lifecycle.VoterJobRetriedAsWritten | aws/management/commands/runsqsworker.py:109-130 | as written, a fresh voter job with a parsed body is kept on each of its first five deliveries and deleted on the sixth, with its handler never run |
| Lifecycle.NoAttributesEndsRun | aws/management/commands/runsqsworker.py:105 | a message without custom attributes ends the run at that iteration; it is not deleted and stays with its count raised |
| Lifecycle.CountIgnoredOnceProcessed | aws/management/commands/runsqsworker.py:119 | a processed message is deleted whatever its receive count, even an unreadable one |
| Lifecycle.HandlerErrorIsContained | aws/management/commands/runsqsworker.py:109-112 | for a well-formed job a handler exception never ends the loop; the message is kept or deleted |
| Lifecycle.UnparseableBodyEndsRun | aws/management/commands/runsqsworker.py:108 | a body that does not parse ends the run at that iteration. Nothing is deleted, and the message stays with its count raised. |

## Left out

- Client selection between `boto3` and `localstack_client` and client construction (lines 77-85): transport plumbing. The queue is an abstract map.
- The visibility timeout (60 s) and the long-poll wait (20 s): they appear in the receive request but have no effect. Which message a receive delivers is a parameter of each iteration, so the model says nothing about concurrent workers or mutual exclusion between them.
- Transport failures of `receive_message` and `delete_message`: the calls always succeed.
- Sqs.Remove: removes the message by id. It does not model how SQS treats a stale receipt handle. The worker only ever deletes with the handle of the claim it has just received.
- The bodies of the two handlers and the imports at lines 45 and 61: each handler is an opaque outcome (returns or raises), and the imports are taken to succeed.
- JSON parsing itself: a body is a parsed value or a parse failure. JSON numbers are reals.
- Exceptions that are not `Exception` subclasses (such as `KeyboardInterrupt`): they are not modelled.
- The Django `Command.handle` entry point, environment lookup and all `print` output (lines 135-140 and the log lines). The one log line that can fail is covered under Findings.
- The infinite `while True`: the loop runs for a finite sequence of iterations.
- Sqs.Receive: the queue counts deliveries exactly, and only this worker's. SQS's `ApproximateReceiveCount` is approximate, and receives by other consumers raise it too.
- Lifecycle.FailingJobExpires: holds of the exact delivery count of Sqs.Receive only. With SQS's approximate count, or with other consumers, a failing job can be deleted after fewer or more of this worker's deliveries.
- Lifecycle.AlwaysFailingJobKeptForFiveDeliveries: holds of the exact delivery count of Sqs.Receive only, for the same reason.
- Lifecycle.AlwaysFailingJobDeletedOnSixthDelivery: holds of the exact delivery count of Sqs.Receive only, for the same reason.
- Lifecycle.VoterJobRetriedAsWritten: holds of the exact delivery count of Sqs.Receive only, for the same reason.
- The `ReceiptHandle` key and the `Attributes` map are always present, as SQS supplies them. The receive count is a number or unreadable.

## Findings

| source | as written | input that shows it | evidently intended | confidence | as-written member | corrected member |
|---|---|---|---|---|---|---|
| aws/management/commands/runsqsworker.py:64-66 | Before calling its handler, the `voter_cache_facebook_images_process` branch logs `voter.we_vote_id` and `facebook_auth_response.facebook_first_name`. Both values come from `json.loads`, which yields values with no such attributes. The statement raises AttributeError, which line 111 catches, so the handler at line 67 never runs. The message is retried and then deleted on its sixth delivery. (Lemmas Jobs.VoterJobNeverReachesHandler and Lifecycle.VoterJobRetriedAsWritten.) | `Function` = `voter_cache_facebook_images_process`, body `{"voter": {"we_vote_id": "wv01voter1"}, "facebook_auth_response": {}}` | the handler is called with `voter` and `facebook_auth_response` once both are present in the body | high; not executed | Jobs.ProcessRequestAsWritten | Jobs.ProcessRequest |
