/** The broker vocabulary shared by workercommons/pub_client.go and workerstd/sub_client.go:
    the configured engine, the message envelope, and the ordered shutdown of a client's
    handles. Broker SDK calls are parameters. */
module Pubsub {
  import opened Wrappers

  /** Raw protobuf bytes. */
  type Bytes = seq<int>

  /** `pubsub.Message`: body and string metadata. */
  datatype Message = Message(body: Bytes, metadata: map<string, string>)

  /** The metadata key naming the kind of message, and the kind a task carries. */
  const TypeKey := "type"
  const TaskType := "Task"

  /** The metadata of every task message: exactly `{"type": "Task"}`. */
  const TaskMetadata: map<string, string> := map[TypeKey := TaskType]

  /** `Broker`: the engine name, connection string, topic (or queue) and, for Azure Service Bus,
      the optional subscription name. */
  datatype Broker = Broker(engine: string, connectionString: string, topicName: string,
                           serviceBusSubscriptionName: string)

  datatype Engine = AzureSB | RabbitMQ

  /** The engine switch: only the two exact names are known. */
  function EngineOf(name: string): (r: Result<Engine>)
    ensures r == Ok(AzureSB) <==> name == "azuresb"
    ensures r == Ok(RabbitMQ) <==> name == "rabbitmq"
    ensures r.Err? ==> r.msg == "Unknown engine"
  {
    if name == "azuresb" then Ok(AzureSB)
    else if name == "rabbitmq" then Ok(RabbitMQ)
    else Err("Unknown engine")
  }

  /** The address `amqp.Dial` receives. */
  function RabbitURL(connectionString: string): (s: string)
    ensures |s| == |connectionString| + 8
    ensures s[..7] == "amqp://" && s[7..|s| - 1] == connectionString && s[|s| - 1] == '/'
  {
    "amqp://" + connectionString + "/"
  }

  /** One step of `Close`, with the error it returned if any. */
  datatype Step<S> = Step(handle: S, result: Option<string>)

  /** Runs the closing steps in order and stops at the first error: the steps attempted, and
      the error `Close` returns. */
  function CloseAll<S>(handles: seq<S>, close: S -> Option<string>): (r: (seq<Step<S>>, Option<string>))
    ensures 0 < |r.0| <= |handles| || (|handles| == 0 && r.0 == [])
    ensures forall i :: 0 <= i < |r.0| ==> r.0[i] == Step(handles[i], close(handles[i]))
    ensures forall i :: 0 <= i < |r.0| - 1 ==> close(handles[i]).None?
    ensures r.1.None? <==> forall i :: 0 <= i < |handles| ==> close(handles[i]).None?
    ensures r.1.None? ==> |r.0| == |handles|
    ensures r.1.Some? ==> r.1 == close(handles[|r.0| - 1])
    decreases |handles|
  {
    if |handles| == 0 then ([], None)
    else
      var first := Step(handles[0], close(handles[0]));
      if first.result.Some? then ([first], first.result)
      else
        var rest := CloseAll(handles[1..], close);
        CloseAllShift(handles, close, rest);
        ([first] + rest.0, rest.1)
  }

  lemma CloseAllShift<S>(handles: seq<S>, close: S -> Option<string>, rest: (seq<Step<S>>, Option<string>))
    requires |handles| > 0 && close(handles[0]).None? && |rest.0| <= |handles| - 1
    requires forall i :: 0 <= i < |rest.0| ==> rest.0[i] == Step(handles[1..][i], close(handles[1..][i]))
    requires rest.1.None? <==> forall i :: 0 <= i < |handles[1..]| ==> close(handles[1..][i]).None?
    ensures rest.1.None? <==> forall i :: 0 <= i < |handles| ==> close(handles[i]).None?
  {
    if rest.1.None? {
      forall i | 0 <= i < |handles| ensures close(handles[i]).None? {
        if i > 0 { assert handles[i] == handles[1..][i - 1]; }
      }
    }
  }
}
