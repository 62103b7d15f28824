/** The node state as the client keeps it: one object whose fields the
    handlers overwrite in place. */
module NodeStates {
  import opened Protocol
  import HeadMirror

  class NodeState {
    var stateKind: HeadMirror.NodeStateKind
    var peers: set<string>
    var parties: seq<Party>
    var headId: Option<string>
    var committedUtxos: map<string, Utxos>
    var headUtxos: Utxos
    var nodeId: Option<string>
    var contestationDeadline: Option<Timestamp>

    /** The current contents of every field, as one value. */
    function View(): HeadMirror.Mirror
      reads this
    {
      HeadMirror.Mirror(stateKind, peers, parties, headId, committedUtxos, headUtxos, nodeId, contestationDeadline)
    }

    /** Every field starts at its initial value: idle, empty, undefined. */
    constructor ()
      ensures View() == HeadMirror.Initial()
    {
      stateKind := HeadMirror.Idle;
      peers := {};
      parties := [];
      headId := None;
      committedUtxos := map[];
      headUtxos := map[];
      nodeId := None;
      contestationDeadline := None;
    }

    /** Overwrites the phase, whatever it was; no other field changes. */
    method Transition(newState: HeadMirror.NodeStateKind)
      modifies this`stateKind
      ensures stateKind == newState
      ensures View() == HeadMirror.Transition(old(View()), newState)
    {
      stateKind := newState;
    }
  }
}
