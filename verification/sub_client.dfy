/** workerstd/sub_client.go: the subscriber side of the task queue. */
module SubClient {
  import opened Wrappers
  import opened Pubsub
  import PubClient

  /** The handles a subscriber owns, in the order `Close` releases them. */
  datatype Handle = Subscription | Receiver | RabbitConn

  /** The Azure Service Bus receiver: a queue receiver when no subscription is configured,
      otherwise a topic-subscription receiver. */
  datatype ReceiverKind = QueueReceiver(queue: string) | SubscriptionReceiver(topic: string, subscription: string)

  /** `SubClient`: the Azure receiver, if any, and whether a RabbitMQ connection is held. */
  datatype Client = Client(engine: Engine, receiver: Option<ReceiverKind>, hasRabbitConn: bool)

  /** The receiver `newAzureSBReceiverClient` opens for the broker. */
  function ReceiverFor(b: Broker): (k: ReceiverKind)
    ensures k.QueueReceiver? <==> b.serviceBusSubscriptionName == ""
    ensures k.QueueReceiver? ==> k.queue == b.topicName
    ensures k.SubscriptionReceiver? ==> k.topic == b.topicName && k.subscription == b.serviceBusSubscriptionName
  {
    if b.serviceBusSubscriptionName == "" then QueueReceiver(b.topicName)
    else SubscriptionReceiver(b.topicName, b.serviceBusSubscriptionName)
  }

  /** `NewSubClient`: `openAzure` stands for the credential, client, receiver and subscription
      calls of `newAzureSBReceiverClient`, `dial` for `amqp.Dial`. */
  function NewSubClient(b: Broker, openAzure: (string, ReceiverKind) -> Result<()>,
                        dial: string -> Result<()>): (r: Result<Client>)
    ensures EngineOf(b.engine).Err? ==> r == Err("Unknown engine")
    ensures b.engine == "azuresb" ==>
      (r.Ok? <==> openAzure(b.connectionString, ReceiverFor(b)).Ok?)
      && (r.Ok? ==> r.value == Client(AzureSB, Some(ReceiverFor(b)), false))
    ensures b.engine == "rabbitmq" ==>
      (r.Ok? <==> dial(RabbitURL(b.connectionString)).Ok?)
      && (r.Ok? ==> r.value == Client(RabbitMQ, None, true))
  {
    match EngineOf(b.engine)
    case Err(e) => Err(e)
    case Ok(AzureSB) =>
      (match openAzure(b.connectionString, ReceiverFor(b))
       case Err(e) => Err(e)
       case Ok(_) => Ok(Client(AzureSB, Some(ReceiverFor(b)), false)))
    case Ok(RabbitMQ) =>
      (match dial(RabbitURL(b.connectionString))
       case Err(e) => Err(e)
       case Ok(_) => Ok(Client(RabbitMQ, None, true)))
  }

  /** The handles of a client in closing order. */
  function Handles(c: Client): (hs: seq<Handle>)
    ensures |hs| > 0 && hs[0] == Subscription
    ensures Receiver in hs <==> c.receiver.Some?
    ensures RabbitConn in hs <==> c.hasRabbitConn
  {
    [Subscription] + (if c.receiver.Some? then [Receiver] else []) + (if c.hasRabbitConn then [RabbitConn] else [])
  }

  /** `Close`: nothing for a nil client; otherwise the steps attempted and the error returned. */
  function Close(c: Option<Client>, close: Handle -> Option<string>): (r: (seq<Step<Handle>>, Option<string>))
    ensures c.None? ==> r == ([], None)
    ensures c.Some? ==> (r.1.None? <==> forall h :: h in Handles(c.value) ==> close(h).None?)
    ensures c.Some? ==> 0 < |r.0| <= |Handles(c.value)| && r.0[0] == Step(Subscription, close(Subscription))
    ensures c.Some? && close(Subscription).Some? ==> r == ([Step(Subscription, close(Subscription))], close(Subscription))
    ensures c.Some? ==> (r.0, r.1) == CloseAll(Handles(c.value), close)
    ensures c.Some? ==> forall i :: 0 <= i < |r.0| ==> r.0[i].handle == Handles(c.value)[i]
    ensures r.1.Some? ==>
      && r.1 == close(r.0[|r.0| - 1].handle)
      && forall i :: 0 <= i < |r.0| - 1 ==> close(r.0[i].handle).None?
    ensures c.Some? && r.1.None? ==> |r.0| == |Handles(c.value)|
  {
    match c
    case None => ([], None)
    case Some(clt) => CloseAll(Handles(clt), close)
  }

  const UnknownType := "Message has unknown type"

  /** What `ReceiveTask` leaves behind: the message and decoded task or the error, and whether
      the message was nacked. */
  datatype Received<T> = Received(result: Result<(Message, T)>, nacked: bool)

  /** The envelope checks: a `type` entry equal to `Task`. */
  predicate IsTaskEnvelope(m: Message) {
    TypeKey in m.metadata && m.metadata[TypeKey] == TaskType
  }

  /** `ReceiveTask`: `received` is the outcome of `Subscription.Receive`, `unmarshal` is
      `proto.Unmarshal`. */
  function ReceiveTask<T>(received: Result<Message>, unmarshal: Bytes -> Result<T>): (r: Received<T>)
    ensures received.Err? ==> r == Received(Err(received.msg), false)
    ensures received.Ok? && !IsTaskEnvelope(received.value) ==> r == Received(Err(UnknownType), true)
    ensures received.Ok? && IsTaskEnvelope(received.value) ==>
      (r.nacked <==> unmarshal(received.value.body).Err?)
      && (r.result.Ok? <==> unmarshal(received.value.body).Ok?)
      && (r.result.Ok? ==> r.result.value == (received.value, unmarshal(received.value.body).value))
      && (r.result.Err? ==> r.result.msg == unmarshal(received.value.body).msg)
    ensures r.result.Ok? <==> !r.nacked && received.Ok?
  {
    match received
    case Err(e) => Received(Err(e), false)
    case Ok(msg) =>
      if TypeKey !in msg.metadata then Received(Err(UnknownType), true)
      else if msg.metadata[TypeKey] != TaskType then Received(Err(UnknownType), true)
      else
        match unmarshal(msg.body)
        case Err(e) => Received(Err(e), true)
        case Ok(task) => Received(Ok((msg, task)), false)
  }

  /** A message `SendTask` publishes passes both envelope checks of `ReceiveTask`; when
      unmarshalling inverts marshalling, the subscriber gets the very task back, un-nacked. */
  lemma SentTaskIsReceived<T>(task: T, marshal: T -> Result<Bytes>, send: Message -> Option<string>,
                              unmarshal: Bytes -> Result<T>)
    requires marshal(task).Ok?
    ensures var sent := PubClient.SendTask(task, marshal, send).0;
      sent.Some? && IsTaskEnvelope(sent.value)
    ensures unmarshal(marshal(task).value) == Ok(task) ==>
      var sent := PubClient.SendTask(task, marshal, send).0.value;
      ReceiveTask(Ok(sent), unmarshal) == Received(Ok((sent, task)), false)
  {
  }
}
