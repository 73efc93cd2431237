/** The broker factory and the job priorities (src/lib/broker/index.ts). */
module Broker {
  import opened Common

  /** `enum Priority`: a numeric enum, numbered from 0 in declaration order. */
  datatype Priority = VERY_HIGH | HIGH | MEDIUM | LOW

  function PriorityValue(p: Priority): (n: nat)
    ensures n < 4
  {
    match p
    case VERY_HIGH => 0
    case HIGH => 1
    case MEDIUM => 2
    case LOW => 3
  }

  /** The enum's reverse mapping, from a number back to its member. */
  function PriorityOf(n: int): (p: Option<Priority>)
    ensures p.Some? <==> 0 <= n < 4
  {
    if n == 0 then Some(VERY_HIGH)
    else if n == 1 then Some(HIGH)
    else if n == 2 then Some(MEDIUM)
    else if n == 3 then Some(LOW)
    else None
  }

  /** The numbers run VERY_HIGH = 0 < HIGH = 1 < MEDIUM = 2 < LOW = 3, and each
      number names one member. */
  lemma PriorityNumbering(p: Priority, q: Priority)
    ensures PriorityValue(VERY_HIGH) == 0 && PriorityValue(HIGH) == 1
    ensures PriorityValue(MEDIUM) == 2 && PriorityValue(LOW) == 3
    ensures PriorityOf(PriorityValue(p)) == Some(p)
    ensures PriorityValue(p) == PriorityValue(q) ==> p == q
  {
  }

  /** The implementations in `impls`. */
  datatype BrokerKind = EventBrokerKind | SnsBrokerKind

  /** `broker.create(name)`: the implementation registered under the name, or
      the error thrown for any other name. */
  function Create(name: string): (r: Result<BrokerKind>)
    ensures r.Ok? <==> name == "event" || name == "sns"
    ensures name == "event" ==> r == Ok(EventBrokerKind)
    ensures name == "sns" ==> r == Ok(SnsBrokerKind)
    ensures r.Err? ==> r.message == "Broker " + name + " is not implemented"
  {
    if name == "event" then Ok(EventBrokerKind)
    else if name == "sns" then Ok(SnsBrokerKind)
    else Err("Broker " + name + " is not implemented")
  }

  function KindName(kind: BrokerKind): string {
    match kind
    case EventBrokerKind => "event"
    case SnsBrokerKind => "sns"
  }

  /** Each implementation is created by exactly its own name. */
  lemma CreateByName(kind: BrokerKind, name: string)
    ensures Create(KindName(kind)) == Ok(kind)
    ensures Create(name).Ok? ==> KindName(Create(name).value) == name
  {
  }
}
