/** DNS records and messages. A message is a heap object in the code; its value is a Message. */
module Messages {
  import opened Names

  /** Record data, as far as the models look into it. */
  datatype Data = Address(bits: nat) | Soa(minimum: nat) | Target(target: Name) | Opt | Other(tag: nat)

  datatype RR = RR(name: Name, typ: nat, ttl: nat, data: Data)

  datatype Question = Question(name: Name, qtype: nat, qclass: nat)

  const ANY: nat := 255
  const INET: nat := 1
  const NOERROR: nat := 0
  const NXDOMAIN: nat := 3
  const SERVFAIL: nat := 2

  datatype Message = Message(id: nat, rcode: nat, truncated: bool, questions: seq<Question>,
                             answer: seq<RR>, ns: seq<RR>, extra: seq<RR>)

  /** A *dns.Msg. */
  class Msg {
    var id: nat
    var rcode: nat
    var truncated: bool
    var questions: seq<Question>
    var answer: seq<RR>
    var ns: seq<RR>
    var extra: seq<RR>

    function Value(): (m: Message)
      reads this
    {
      Message(id, rcode, truncated, questions, answer, ns, extra)
    }

    constructor (m: Message)
      ensures Value() == m
    {
      id, rcode, truncated, questions := m.id, m.rcode, m.truncated, m.questions;
      answer, ns, extra := m.answer, m.ns, m.extra;
    }

    method Copy() returns (c: Msg)
      ensures fresh(c) && c.Value() == Value()
    {
      c := new Msg(Message(id, rcode, truncated, questions, answer, ns, extra));
    }
  }
}
