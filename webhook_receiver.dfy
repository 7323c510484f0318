/** The webhook receiver: it verifies the provider's signature, wraps the verified event in a
    normalised envelope and makes exactly one attempt to send it to the FIFO queue, keyed for
    deduplication by the event id and grouped under one fixed key. */
module WebhookReceiver {
  import opened Common
  import opened StripeEvents

  const MESSAGE_GROUP_ID := "stripe-webhooks"

  const INVALID_SIGNATURE := "Invalid signature"
  const QUEUE_FAILED := "Failed to queue event"

  /** `MessageAttributes`: both of DataType 'String'. */
  datatype MessageAttributes = MessageAttributes(eventType: string, eventId: string)

  /** The `sqsParams` handed to `sendMessage`; the body is the envelope before
      `JSON.stringify`. */
  datatype SendMessageRequest = SendMessageRequest(
    queueUrl: string,
    messageBody: QueuedEvent,
    messageAttributes: MessageAttributes,
    messageDeduplicationId: string,
    messageGroupId: string)

  datatype ReceiverBody = Error(error: string) | Received(received: bool, eventId: string, queued: bool)

  /** The envelope sent for a verified event. */
  function Envelope(ev: StripeEvent, queueUrl: string): (m: SendMessageRequest)
    ensures m.messageBody.eventId == ev.id && m.messageBody.eventType == ev.eventType
    ensures m.messageBody.eventData == ev.data
    ensures m.messageBody.created == ev.created && m.messageBody.livemode == ev.livemode
    ensures m.messageDeduplicationId == m.messageBody.eventId == ev.id
    ensures m.messageGroupId == MESSAGE_GROUP_ID
    ensures m.messageAttributes == MessageAttributes(m.messageBody.eventType, m.messageBody.eventId)
  {
    SendMessageRequest(
      queueUrl,
      QueuedEvent(ev.id, ev.eventType, ev.data, ev.created, ev.livemode),
      MessageAttributes(ev.eventType, ev.id),
      ev.id,
      MESSAGE_GROUP_ID)
  }

  /** The queue as the receiver sees it: every `sendMessage` call is an attempt; the
      messages it accepted, in order. Deduplication and delivery are the queue's own. */
  class Sqs {
    var attempts: seq<SendMessageRequest>
    var messages: seq<SendMessageRequest>

    constructor ()
      ensures attempts == [] && messages == []
    {
      attempts, messages := [], [];
    }

    /** `sqs.sendMessage(params).promise()`; `succeeds` is the call's outcome. */
    method SendMessage(m: SendMessageRequest, succeeds: bool) returns (ok: bool)
      modifies this
      ensures ok == succeeds
      ensures attempts == old(attempts) + [m]
      ensures messages == old(messages) + (if succeeds then [m] else [])
    {
      attempts := attempts + [m];
      if succeeds {
        messages := messages + [m];
      }
      ok := succeeds;
    }
  }

  /** The response for a verification outcome and a send outcome. */
  function ReceiverResponse(verified: Option<StripeEvent>, sendSucceeds: bool): (r: Response<ReceiverBody>)
    ensures r.Response?
    ensures r.statusCode == 400 <==> verified.None?
    ensures r.statusCode == 200 <==> verified.Some? && sendSucceeds
    ensures r.statusCode == 500 <==> verified.Some? && !sendSucceeds
    ensures r.statusCode == 200 ==> r.body == Received(true, verified.value.id, true)
    ensures r.statusCode == 400 ==> r.body == Error(INVALID_SIGNATURE)
    ensures r.statusCode == 500 ==> r.body == Error(QUEUE_FAILED)
  {
    if verified.None? then Response(400, Error(INVALID_SIGNATURE))
    else if sendSucceeds then Response(200, Received(true, verified.value.id, true))
    else Response(500, Error(QUEUE_FAILED))
  }

  /** `handler`. `verified` is what `constructEvent(body, signature, secret)` returns, None
      when it throws. */
  method Handler(sqs: Sqs, verified: Option<StripeEvent>, queueUrl: string, sendSucceeds: bool)
    returns (resp: Response<ReceiverBody>)
    modifies sqs
    ensures resp == ReceiverResponse(verified, sendSucceeds)
    ensures verified.None? ==> sqs.attempts == old(sqs.attempts) && sqs.messages == old(sqs.messages)
    ensures verified.Some? ==> sqs.attempts == old(sqs.attempts) + [Envelope(verified.value, queueUrl)]
    ensures verified.Some? ==> sqs.messages == old(sqs.messages) + (if sendSucceeds then [Envelope(verified.value, queueUrl)] else [])
  {
    if verified.None? {
      return Response(400, Error(INVALID_SIGNATURE));
    }
    var stripeEvent := verified.value;
    var sqsParams := Envelope(stripeEvent, queueUrl);
    var ok := sqs.SendMessage(sqsParams, sendSucceeds);
    if !ok {
      return Response(500, Error(QUEUE_FAILED));
    }
    resp := Response(200, Received(true, stripeEvent.id, true));
  }
}
