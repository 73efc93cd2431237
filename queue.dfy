/** The message-queue registry (src/lib/queue/index.ts): one queue per topic,
    built by the named factory the first time the topic is asked for. */
module Queue {
  import opened Common

  /** `MessageQueueOption`, without its connection settings. */
  datatype MessageQueueOption = MessageQueueOption(concurrency: Option<int>)

  /** The factory names in `impls`. */
  const FACTORIES := ["bull"]

  /** The error a call of the missing `impls[factory]` throws. */
  const NOT_A_FUNCTION := "impls[factory] is not a function"

  /** A queue as a factory builds it. */
  class MessageQueue {
    const factory: string
    const name: string
    const option: Option<MessageQueueOption>

    constructor(factory: string, name: string, option: Option<MessageQueueOption>)
      ensures this.factory == factory && this.name == name && this.option == option
    {
      this.factory := factory;
      this.name := name;
      this.option := option;
    }
  }

  /** The module-level `instances` record and `queue.create`. */
  class QueueRegistry {
    var instances: map<string, MessageQueue>

    constructor()
      ensures instances == map[]
    {
      instances := map[];
    }

    /** `create(factory, topic, option)`: the recorded queue of the topic whatever
        the factory and option; otherwise a new queue from the factory, recorded
        under the topic; an unknown factory fails and records nothing. */
    method Create(factory: string, topic: string, option: Option<MessageQueueOption>) returns (r: Result<MessageQueue>)
      modifies this
      ensures topic in old(instances) ==> r == Ok(old(instances)[topic]) && instances == old(instances)
      ensures topic !in old(instances) && factory !in FACTORIES ==>
        r == Err(NOT_A_FUNCTION) && instances == old(instances)
      ensures topic !in old(instances) && factory in FACTORIES ==>
        r.Ok? && fresh(r.value) && r.value.factory == factory && r.value.name == topic && r.value.option == option
        && instances == old(instances)[topic := r.value]
      ensures forall t :: t in old(instances) ==> t in instances && instances[t] == old(instances)[t]
    {
      if topic !in instances {
        if factory !in FACTORIES {
          return Err(NOT_A_FUNCTION);
        }
        var q := new MessageQueue(factory, topic, option);
        instances := instances[topic := q];
      }
      r := Ok(instances[topic]);
    }
  }

  /** Asking twice for one topic gives the same queue, built with the first
      call's option; another topic gets a queue of its own. */
  method SameTopicSameQueue(first: Option<MessageQueueOption>, second: Option<MessageQueueOption>)
    returns (a: Result<MessageQueue>, b: Result<MessageQueue>, c: Result<MessageQueue>)
    ensures a.Ok? && b.Ok? && c.Ok?
    ensures a.value == b.value && a.value.option == first
    ensures c.value != a.value && c.value.name == "sms"
  {
    var registry := new QueueRegistry();
    a := registry.Create("bull", "mail", first);
    b := registry.Create("bull", "mail", second);
    c := registry.Create("bull", "sms", second);
  }
}
