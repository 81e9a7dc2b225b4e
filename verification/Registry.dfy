/** The registry of live sessions: which channel, if any, a node's notifications go to. */
module Registry {
  import opened Prelude
  import opened ServerSession

  datatype Change = Insert(node: string, channel: nat) | Remove(node: string)

  /** The `sessions` map after a series of insertions and removals. */
  function Sessions(changes: seq<Change>): map<string, nat> {
    if changes == [] then map[]
    else
      var before := Sessions(changes[..|changes| - 1]);
      match changes[|changes| - 1]
      case Insert(node, channel) => before[node := channel]
      case Remove(node) => before - {node}
  }

  /** The change at `i` is the last one for its node. */
  ghost predicate LastFor(changes: seq<Change>, i: nat) {
    i < |changes| && forall j | i < j < |changes| :: changes[j].node != changes[i].node
  }

  ghost predicate Heard(changes: seq<Change>, node: string, channel: nat) {
    exists i: nat :: LastFor(changes, i) && changes[i] == Insert(node, channel)
  }

  /** A session hears its node's notifications exactly while its own insertion is the node's last
      change. In particular, when an older session of the node closes after the insertion, its
      `remove_session` takes the newer one off the registry. */
  lemma {:induction false} HeardIff(changes: seq<Change>, node: string, channel: nat)
    ensures (node in Sessions(changes) && Sessions(changes)[node] == channel)
            <==> Heard(changes, node, channel)
  {
    if changes != [] {
      var n := |changes| - 1;
      var before := changes[..n];
      HeardIff(before, node, channel);
      if changes[n].node == node {
        assert LastFor(changes, n);
        forall i: nat | LastFor(changes, i) && changes[i].node == node ensures i == n { }
      } else {
        forall i: nat ensures LastFor(before, i) && before[i].node == node <==> LastFor(changes, i) && changes[i].node == node {
          if LastFor(changes, i) && changes[i].node == node { assert i < n; }
        }
        assert Sessions(changes).Keys - {changes[n].node} == Sessions(before).Keys - {changes[n].node};
      }
    }
  }

  class AppState {
    var sessions: map<string, nat>
    var queues: map<nat, seq<Signal>>
    ghost var history: seq<Change>

    ghost predicate Valid()
      reads this
    {
      sessions == Sessions(history)
    }

    constructor ()
      ensures Valid() && history == [] && queues == map[]
    {
      sessions, queues, history := map[], map[], [];
    }

    /** The sender replaces any earlier one of the node. */
    method InsertSession(node: string, channel: nat)
      requires Valid()
      modifies this
      ensures Valid() && history == old(history) + [Insert(node, channel)]
      ensures queues == old(queues)[channel := []]
    {
      sessions := sessions[node := channel];
      queues := queues[channel := []];
      history := history + [Insert(node, channel)];
      assert history[..|history| - 1] == old(history);
    }

    /** Removes whatever is registered for the node, whoever registered it. */
    method RemoveSession(node: string)
      requires Valid()
      modifies this
      ensures Valid() && history == old(history) + [Remove(node)] && queues == old(queues)
    {
      sessions := sessions - {node};
      history := history + [Remove(node)];
      assert history[..|history| - 1] == old(history);
    }

    method Send(node: string, signal: Signal)
      modifies this`queues
      ensures queues == if node in sessions && sessions[node] in old(queues)
                        then old(queues)[sessions[node] := old(queues)[sessions[node]] + [signal]] else old(queues)
    {
      if node in sessions && sessions[node] in queues {
        var channel := sessions[node];
        queues := queues[channel := queues[channel] + [signal]];
      }
    }

    /** Appends to the queue of the channel whose insertion is the node's last change, if there is one. */
    method NotifyNode(node: string)
      requires Valid()
      modifies this`queues
      ensures forall channel | channel in old(queues) ::
                channel in queues
                && queues[channel] == if Heard(history, node, channel)
                                      then old(queues)[channel] + [TryDispatch] else old(queues)[channel]
    {
      forall channel: nat ensures (node in sessions && sessions[node] == channel) <==> Heard(history, node, channel) {
        HeardIff(history, node, channel);
      }
      Send(node, TryDispatch);
    }

    method NotifyTaskCancel(node: string, taskId: nat, reason: Option<string>)
      requires Valid()
      modifies this`queues
      ensures forall channel | channel in old(queues) ::
                channel in queues
                && queues[channel] == if Heard(history, node, channel)
                                      then old(queues)[channel] + [CancelTaskSignal(taskId, reason)] else old(queues)[channel]
    {
      forall channel: nat ensures (node in sessions && sessions[node] == channel) <==> Heard(history, node, channel) {
        HeardIff(history, node, channel);
      }
      Send(node, CancelTaskSignal(taskId, reason));
    }
  }
}
