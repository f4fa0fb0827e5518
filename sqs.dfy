/**
 * The queue service as the worker sees it: a map from message id to the
 * stored message and its receive count, with `receive_message` and
 * `delete_message`. Which message a receive delivers is the service's choice
 * and is given as a parameter; the visibility window and the long-poll wait
 * are recorded in the request but have no effect here.
 */
module Sqs {
  import opened Wrappers
  import opened Json

  type MessageId = string

  /** One claim of one message: a redelivery gets a new claim number, hence a new handle. */
  datatype ReceiptHandle = ReceiptHandle(id: MessageId, claim: nat)

  /** A custom message attribute; string and number attributes carry a `StringValue`, binary ones do not. */
  datatype AttrValue = AttrValue(stringValue: Option<string>)

  /**
   * What a producer put on the queue: the `MessageAttributes` map (absent
   * from a message that has none) and the body, parsed or not parseable.
   */
  datatype Content = Content(messageAttributes: Option<map<string, AttrValue>>, body: Option<Json>)

  /** A stored message and the number of times it has been delivered. */
  datatype Entry = Entry(content: Content, receiveCount: nat)

  type Store = map<MessageId, Entry>

  /** A delivered message; `receiveCount` is the `ApproximateReceiveCount` attribute, read as an integer. */
  datatype Message = Message(receiptHandle: ReceiptHandle, content: Content, receiveCount: Option<int>)

  /** A receive response; `messages` is absent when nothing was delivered. */
  datatype Response = Response(messages: Option<seq<Message>>)

  datatype ReceiveRequest = ReceiveRequest(maxNumberOfMessages: nat, visibilityTimeout: nat, waitTimeSeconds: nat)

  datatype Receipt = Receipt(queue: Store, response: Response)

  /** Whether a receive with `pick` as the service's choice delivers that message. */
  predicate Delivers(m: Store, request: ReceiveRequest, pick: Option<MessageId>)
  {
    request.maxNumberOfMessages > 0 && pick.Some? && pick.value in m
  }

  /** `receive_message`: deliver at most one message and count the delivery. */
  function Receive(m: Store, request: ReceiveRequest, pick: Option<MessageId>): (r: Receipt)
    // nothing is added or removed, and no content changes
    ensures r.queue.Keys == m.Keys
    ensures forall id :: id in m ==> r.queue[id].content == m[id].content
    // exactly the delivered message has its receive count raised by one
    ensures forall id :: id in m ==>
      r.queue[id].receiveCount == m[id].receiveCount + (if Delivers(m, request, pick) && id == pick.value then 1 else 0)
    // a response holds the delivered message only: its stored content, its
    // new count, and a handle for this claim
    ensures r.response.messages.Some? <==> Delivers(m, request, pick)
    ensures r.response.messages.Some? ==>
      0 < |r.response.messages.value| <= request.maxNumberOfMessages &&
      r.response.messages.value[0]
        == Message(ReceiptHandle(pick.value, r.queue[pick.value].receiveCount),
                   m[pick.value].content, Some(r.queue[pick.value].receiveCount))
  {
    if Delivers(m, request, pick) then
      var id := pick.value;
      var count := m[id].receiveCount + 1;
      Receipt(m[id := Entry(m[id].content, count)],
              Response(Some([Message(ReceiptHandle(id, count), m[id].content, Some(count))])))
    else
      Receipt(m, Response(None))
  }

  /**
   * `delete_message`: remove the message the handle was issued for; deleting
   * a message that is already gone is not an error.
   */
  function Remove(m: Store, handle: ReceiptHandle): (r: Store)
    ensures r.Keys == m.Keys - {handle.id}
    ensures forall id :: id in r ==> r[id] == m[id]
  {
    m - {handle.id}
  }

  lemma RemoveIsIdempotent(m: Store, handle: ReceiptHandle)
    ensures Remove(Remove(m, handle), handle) == Remove(m, handle)
  {
  }

  /** The client the worker holds: the queue's state, updated in place by its two calls. */
  class QueueClient {
    var messages: Store

    constructor (initial: Store)
      ensures messages == initial
    {
      messages := initial;
    }

    method ReceiveMessage(request: ReceiveRequest, pick: Option<MessageId>) returns (response: Response)
      modifies this
      ensures messages == Receive(old(messages), request, pick).queue
      ensures response == Receive(old(messages), request, pick).response
    {
      var receipt := Receive(messages, request, pick);
      messages := receipt.queue;
      response := receipt.response;
    }

    method DeleteMessage(handle: ReceiptHandle)
      modifies this
      ensures messages == Remove(old(messages), handle)
    {
      messages := Remove(messages, handle);
    }
  }
}
