/** The five topics of a node and the routing the server does on them. */
module Topics {

  /** A topic as one session sees it: one of its node's five topics, or anything else. */
  datatype Topic = OnHello | OnTask | OnAck | OnResult | OnControl | Elsewhere

  function Suffix(kind: Topic): string
    requires kind != Elsewhere
  {
    match kind
    case OnHello => "/hello"
    case OnTask => "/task"
    case OnAck => "/ack"
    case OnResult => "/result"
    case OnControl => "/control"
  }

  function TopicName(node: string, kind: Topic): string
    requires kind != Elsewhere
  {
    "nodes/" + node + Suffix(kind)
  }

  /** The five topics of a node, as both ends spell them. */
  lemma TopicsOf(node: string)
    ensures TopicName(node, OnHello) == "nodes/" + node + "/hello"
    ensures TopicName(node, OnTask) == "nodes/" + node + "/task"
    ensures TopicName(node, OnAck) == "nodes/" + node + "/ack"
    ensures TopicName(node, OnResult) == "nodes/" + node + "/result"
    ensures TopicName(node, OnControl) == "nodes/" + node + "/control"
  {
  }

  /** Last two characters of a topic: they already tell the five kinds apart. */
  lemma TopicEnding(node: string, kind: Topic)
    requires kind != Elsewhere
    ensures var t := TopicName(node, kind); |t| == 6 + |node| + |Suffix(kind)|
    ensures var t := TopicName(node, kind); t[6..6 + |node|] == node
    ensures var t := TopicName(node, kind); var s := Suffix(kind);
            t[|t| - 1] == s[|s| - 1] && t[|t| - 2] == s[|s| - 2]
  {
  }

  /** Different nodes or different kinds never share a topic, even when ids contain '/'. */
  lemma TopicInjective(node1: string, kind1: Topic, node2: string, kind2: Topic)
    requires kind1 != Elsewhere && kind2 != Elsewhere
    requires TopicName(node1, kind1) == TopicName(node2, kind2)
    ensures node1 == node2 && kind1 == kind2
  {
    TopicEnding(node1, kind1);
    TopicEnding(node2, kind2);
    assert kind1 == kind2;
  }

  /** The tests of `handle_publish`, in its order, then the one on subscriptions. */
  function Route(node: string, topic: string): Topic {
    if topic == TopicName(node, OnHello) then OnHello
    else if topic == TopicName(node, OnControl) then OnControl
    else if topic == TopicName(node, OnAck) then OnAck
    else if topic == TopicName(node, OnResult) then OnResult
    else if topic == TopicName(node, OnTask) then OnTask
    else Elsewhere
  }

  /** Routing inverts naming, so no order of the tests could change where a publish goes;
      another node's topics are all elsewhere. */
  lemma RouteExact(node: string, topic: string)
    ensures forall kind | kind != Elsewhere :: Route(node, topic) == kind <==> topic == TopicName(node, kind)
    ensures forall other, kind | other != node && kind != Elsewhere && topic == TopicName(other, kind) ::
              Route(node, topic) == Elsewhere
  {
    forall other, kind, kind2 | kind != Elsewhere && kind2 != Elsewhere
                                && topic == TopicName(other, kind) && topic == TopicName(node, kind2)
      ensures other == node && kind == kind2
    {
      TopicInjective(other, kind, node, kind2);
    }
  }
}
