/** The handlers and the system agree: what a handler does in one go is a run of the system in
    which nobody else takes a step. */
module Refinement {
  import opened Prelude
  import opened ServerSession
  import opened Protocol

  predicate Advances(steps: seq<Step>, node: string) {
    forall i | 0 <= i < |steps| :: steps[i].ServerAdvances? && steps[i].node == node
  }

  /** The system with the link of `node` as the settled handler leaves it. */
  function Left(sys: System, node: string, e: Effect): System
    requires node in sys.links
  {
    sys.(store := e.store, links := sys.links[node := sys.links[node].(session := e.session, toClient := e.sent)])
  }

  lemma {:induction false} SettleIsRun(sys: System, node: string, clock: nat -> U64) returns (steps: seq<Step>)
    requires Connected(sys, node) && (sys.links[node].session.pc.Expired? ==> sys.links[node].session.slot.Some?)
    ensures var link := sys.links[node];
            Advances(steps, node)
            && Trace(sys, steps, Left(sys, node, Settle(node, Effect(sys.store, link.session, link.toClient), clock)))
    decreases Rank(sys.links[node].session.pc)
  {
    var link := sys.links[node];
    if !InHandler(link.session) {
      assert sys == Left(sys, node, Effect(sys.store, link.session, link.toClient));
      return [];
    }
    var step := ServerAdvances(node, clock(Rank(link.session.pc)));
    var next := Apply(sys, step);
    var rest := SettleIsRun(next, node, clock);
    steps := [step] + rest;
    var e := Advance(node, sys.store, link.session, clock(Rank(link.session.pc)));
    var settled := Settle(node, Effect(e.store, e.session, link.toClient + e.sent), clock);
    assert steps[1..] == rest;
    assert Left(next, node, settled) == Left(sys, node, settled);
  }
}
