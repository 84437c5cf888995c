/**
 * Values that travel between the broker, the hosted service and the consumers:
 * exceptions, application property values and the per-delivery MessageContext.
 */
module Messages {
  import opened Wrappers

  newtype byte = b: int | 0 <= b < 256

  /** A thrown .NET exception, identified by its type name and message. */
  datatype Exception = Exception(typeName: string, message: string)

  /** A value stored in an application-property or attribute dictionary (a boxed object). */
  datatype PropertyValue = NullValue | StringValue(s: string) | IntValue(i: int) | OtherValue(id: nat)

  /**
   * The envelope the hosted service builds for each delivery. The fields are the ones the hosted
   * service assigns: QueueOrTopicName, SubscriptionName (null for queues) and DiagnosticId
   * (left unset unless the message carries one).
   */
  datatype MessageContext = MessageContext(
    queueOrTopicName: string,
    subscriptionName: Option<string>,
    rawPayload: seq<byte>,
    messageId: string,
    correlationId: string,
    deliveryAttempt: int,
    maxDeliveryAttempts: int,
    diagnosticId: Option<string>)
}
