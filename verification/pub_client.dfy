/** workercommons/pub_client.go: the publisher side of the task queue. */
module PubClient {
  import opened Wrappers
  import opened Pubsub

  /** The handles a publisher owns, in the order `Close` releases them. */
  datatype Handle = Topic | Sender | RabbitConn

  /** `PubClient`: which optional handles are present. Azure Service Bus clients hold a sender,
      RabbitMQ clients a connection. */
  datatype Client = Client(engine: Engine, hasSender: bool, hasRabbitConn: bool)

  /** `NewPubClient`: `openAzure` stands for the credential, client, sender and topic calls of
      `newAzureSBSenderClient`, `dial` for `amqp.Dial`. */
  function NewPubClient(b: Broker, openAzure: (string, string) -> Result<()>,
                        dial: string -> Result<()>): (r: Result<Client>)
    ensures EngineOf(b.engine).Err? ==> r == Err("Unknown engine")
    ensures b.engine == "azuresb" ==>
      (r.Ok? <==> openAzure(b.connectionString, b.topicName).Ok?)
      && (r.Ok? ==> r.value == Client(AzureSB, true, false))
    ensures b.engine == "rabbitmq" ==>
      (r.Ok? <==> dial(RabbitURL(b.connectionString)).Ok?)
      && (r.Ok? ==> r.value == Client(RabbitMQ, false, true))
  {
    match EngineOf(b.engine)
    case Err(e) => Err(e)
    case Ok(AzureSB) =>
      (match openAzure(b.connectionString, b.topicName)
       case Err(e) => Err(e)
       case Ok(_) => Ok(Client(AzureSB, true, false)))
    case Ok(RabbitMQ) =>
      (match dial(RabbitURL(b.connectionString))
       case Err(e) => Err(e)
       case Ok(_) => Ok(Client(RabbitMQ, false, true)))
  }

  /** The handles of a client in closing order. */
  function Handles(c: Client): (hs: seq<Handle>)
    ensures |hs| > 0 && hs[0] == Topic
    ensures Sender in hs <==> c.hasSender
    ensures RabbitConn in hs <==> c.hasRabbitConn
  {
    [Topic] + (if c.hasSender then [Sender] else []) + (if c.hasRabbitConn then [RabbitConn] else [])
  }

  /** The log line written before `Close` returns an error. */
  function CloseLog(h: Handle, err: string): string {
    match h
    case Topic => "Error shutting down publisher: " + err
    case Sender => "Error closing Azure PubSub sender: " + err
    case RabbitConn => "Error closing RabbitMQ connection: " + err
  }

  /** `Close`: nothing for a nil client; otherwise the steps attempted, the error returned and
      the error logged. */
  function Close(c: Option<Client>, close: Handle -> Option<string>)
    : (r: (seq<Step<Handle>>, Option<string>, Option<string>))
    ensures c.None? ==> r == ([], None, None)
    ensures c.Some? ==> (r.1.None? <==> forall h :: h in Handles(c.value) ==> close(h).None?)
    ensures c.Some? ==> 0 < |r.0| <= |Handles(c.value)| && r.0[0] == Step(Topic, close(Topic))
    ensures c.Some? && close(Topic).Some? ==> r == ([Step(Topic, close(Topic))], close(Topic), Some(CloseLog(Topic, close(Topic).value)))
    ensures c.Some? ==> (r.0, r.1) == CloseAll(Handles(c.value), close)
    ensures c.Some? ==> forall i :: 0 <= i < |r.0| ==> r.0[i].handle == Handles(c.value)[i]
    ensures r.1.Some? ==>
      && r.1 == close(r.0[|r.0| - 1].handle)
      && forall i :: 0 <= i < |r.0| - 1 ==> close(r.0[i].handle).None?
    ensures c.Some? && r.1.None? ==> |r.0| == |Handles(c.value)|
    ensures r.1.Some? ==> r.2 == Some(CloseLog(r.0[|r.0| - 1].handle, r.1.value))
  {
    match c
    case None => ([], None, None)
    case Some(clt) =>
      var (steps, err) := CloseAll(Handles(clt), close);
      (steps, err, if err.Some? then Some(CloseLog(steps[|steps| - 1].handle, err.value)) else None)
  }

  /** `SendTask`: the message handed to the topic (if marshalling succeeded) and the error returned. */
  function SendTask<T>(task: T, marshal: T -> Result<Bytes>, send: Message -> Option<string>)
    : (r: (Option<Message>, Option<string>))
    ensures marshal(task).Err? ==> r == (None, Some(marshal(task).msg))
    ensures marshal(task).Ok? ==> r.0 == Some(Message(marshal(task).value, TaskMetadata))
    ensures marshal(task).Ok? ==> r.1 == send(r.0.value)
  {
    match marshal(task)
    case Err(e) => (None, Some(e))
    case Ok(body) =>
      var msg := Message(body, TaskMetadata);
      (Some(msg), send(msg))
  }

  /** Whether a RabbitMQ publisher comes up, and what it is, depends on the connection string
      alone: not on the topic or subscription names, nor on the Azure Service Bus calls. */
  lemma RabbitDependsOnConnectionOnly(b1: Broker, b2: Broker, openAzure1: (string, string) -> Result<()>,
                                      openAzure2: (string, string) -> Result<()>, dial: string -> Result<()>)
    requires b1.engine == "rabbitmq" && b2.engine == "rabbitmq"
    requires b1.connectionString == b2.connectionString
    ensures NewPubClient(b1, openAzure1, dial) == NewPubClient(b2, openAzure2, dial)
  {
  }
}
