/** The Hydra client object: it owns a node state, a replay flag, the
    listener list and the connection, and updates them in place as records
    arrive. The public operations are proved against the matching functions
    of `ClientSpec`, the dispatch and the handlers against `HeadMirror.Apply`
    and the `HeadMirror.On*` functions, and the fan-out loop against
    `Listeners.Broadcast`. */
module Client {
  import opened Protocol
  import HeadMirror
  import opened NodeStates
  import opened Listeners
  import ClientSpec

  class HydraClient {
    var host: string
    var name: string
    var isLoadingHistory: bool
    var state: NodeState
    var ws: Option<ClientSpec.Connection>
    var launched: bool
    var messageListeners: seq<ListenerId>
    /** What has been written to the connection. */
    var outbox: seq<ClientSpec.Outgoing>
    /** Every listener call made so far, in order. */
    ghost var delivered: seq<Notification>

    /** The client's fields as one value. */
    ghost function Model(): ClientSpec.Session
      reads this, state
    {
      ClientSpec.Session(isLoadingHistory, state.View(), messageListeners, ws, launched, outbox, delivered)
    }

    /** A new client for `host`, named `name` unless that is absent or empty. */
    constructor (host: string, name: Option<string>)
      ensures this.host == host
      ensures this.name == if name.Some? && name.value != "" then name.value else "HydraClient"
      ensures fresh(state)
      ensures Model() == ClientSpec.InitialSession()
    {
      this.host := host;
      this.name := if name.Some? && name.value != "" then name.value else "HydraClient";
      isLoadingHistory := true;
      state := new NodeState();
      ws := None;
      launched := false;
      messageListeners := [];
      outbox := [];
      delivered := [];
    }

    /** The re-entry guard of initialisation: only the first call launches. */
    method Init() returns (started: bool)
      modifies this`launched
      ensures (started, Model()) == ClientSpec.Launch(old(Model()))
    {
      if launched {
        return false;
      }
      launched := true;
      started := true;
    }

    /** The socket's open event: it becomes the client's connection. */
    method OnOpen(conn: ClientSpec.Connection)
      modifies this`ws
      ensures Model() == ClientSpec.Opened(old(Model()), conn)
    {
      ws := Some(conn);
    }

    method OnMessage(callback: ListenerId)
      modifies this`messageListeners
      ensures Model() == ClientSpec.OnMessage(old(Model()), callback)
    {
      messageListeners := messageListeners + [callback];
    }

    method OffMessage(callback: ListenerId)
      modifies this`messageListeners
      ensures Model() == ClientSpec.OffMessage(old(Model()), callback)
    {
      messageListeners := Without(messageListeners, callback);
    }

    method Close()
      modifies this`ws, this`messageListeners
      ensures Model() == ClientSpec.Close(old(Model()))
    {
      ws := None;
      messageListeners := [];
    }

    /** Writes a command to the connection; without one, fails and sends nothing. */
    method Send(command: ClientInput) returns (res: ClientSpec.Result<()>)
      modifies this`outbox
      ensures match ClientSpec.Send(old(Model()), command)
        case Ok(s) => res.Ok? && Model() == s
        case Err(e) => res == ClientSpec.Err(e) && Model() == old(Model())
    {
      if ws.None? {
        return ClientSpec.Err(ClientSpec.NotConnected);
      }
      outbox := outbox + [ClientSpec.Outgoing(ws.value, command)];
      res := ClientSpec.Ok(());
    }

    /** Handles one decoded record: its handler updates the node state, an
        unknown tag fails before anything changes, and once the client is
        no longer replaying history every listener is called with it. */
    method HandleServerResponse(response: DecodedResponse) returns (res: ClientSpec.Result<()>)
      modifies this`isLoadingHistory, this`delivered, state
      ensures match ClientSpec.Step(old(Model()), response)
        case Ok(s) => res.Ok? && Model() == s
        case Err(e) => res == ClientSpec.Err(e) && Model() == old(Model())
    {
      var handled := Dispatch(response);
      if !handled {
        return ClientSpec.Err(ClientSpec.UnexpectedServerResponseTag(response.payload.tag));
      }
      if !isLoadingHistory {
        NotifyListeners(response);
      }
      res := ClientSpec.Ok(());
    }

    /** Runs the handler for the record's tag; reports an unknown tag, for
        which nothing changes. */
    method Dispatch(response: DecodedResponse) returns (handled: bool)
      modifies this`isLoadingHistory, state
      ensures handled == !response.payload.Unknown?
      ensures handled ==> state.View() == HeadMirror.Apply(old(state.View()), response).value
      ensures isLoadingHistory == (old(isLoadingHistory) && !response.payload.Greetings?)
      ensures !handled ==> state.View() == old(state.View())
    {
      handled := true;
      match response.payload {
        case Greetings(me, _, _) => HandleGreetings(me);
        case PeerConnected(peer) => HandlePeerConnected(peer);
        case PeerDisconnected(peer) => HandlePeerDisconnected(peer);
        case HeadIsInitializing(parties) => HandleHeadIsInitializing(response.headId, parties);
        case Committed(party, utxo) => HandleCommitted(party, utxo);
        case HeadIsOpen(utxo) => HandleHeadIsOpen(utxo);
        case HeadIsClosed(_, deadline) => HandleHeadIsClosed(deadline);
        case HeadIsContested(_) =>
        case ReadyToFanout => HandleReadyToFanout();
        case HeadIsAborted(_) => HandleHeadIsAborted();
        case TxValid(_) =>
        case TxInvalid(_, _) =>
        case SnapshotConfirmed(snapshot, _) => HandleSnapshotConfirmed(snapshot.utxo);
        case GetUTxOResponse(utxo) => HandleGetUTxOResponse(utxo);
        case InvalidInput(_, _) =>
        case PostTxOnChainFailed(_, _, _) =>
        case CommandFailed(_) =>
        case HeadIsFinalized(_) => HandleHeadIsFinalized();
        case Unknown(_) => handled := false;
      }
    }

    /** Calls every listener with `response`, in list order. */
    method NotifyListeners(response: ServerResponse)
      modifies this`delivered
      ensures delivered == old(delivered) + Broadcast(messageListeners, response)
    {
      ghost var before := delivered;
      for i := 0 to |messageListeners|
        invariant |delivered| == |before| + i
        invariant delivered[..|before|] == before
        invariant forall j :: 0 <= j < i ==> delivered[|before| + j] == Notification(messageListeners[j], response)
      {
        delivered := delivered + [Notification(messageListeners[i], response)];
      }
    }

    method HandleGreetings(me: Party)
      modifies this`isLoadingHistory, state
      ensures !isLoadingHistory
      ensures state.View() == HeadMirror.OnGreetings(old(state.View()), me)
    {
      isLoadingHistory := false;
      state.nodeId := Some(me.vkey);
    }

    method HandlePeerConnected(peer: string)
      modifies state
      ensures state.View() == HeadMirror.OnPeerConnected(old(state.View()), peer)
    {
      state.peers := state.peers + {peer};
    }

    method HandlePeerDisconnected(peer: string)
      modifies state
      ensures state.View() == HeadMirror.OnPeerDisconnected(old(state.View()), peer)
    {
      state.peers := state.peers - {peer};
    }

    method HandleHeadIsInitializing(headId: string, parties: seq<Party>)
      modifies state
      ensures state.View() == HeadMirror.OnHeadIsInitializing(old(state.View()), headId, parties)
    {
      state.Transition(HeadMirror.Initializing);
      state.committedUtxos := map[];
      state.headId := Some(headId);
      state.parties := parties;
    }

    method HandleHeadIsAborted()
      modifies state
      ensures state.View() == HeadMirror.OnHeadIsAborted(old(state.View()))
    {
      state.parties := [];
      state.committedUtxos := map[];
      state.headId := None;
      state.Transition(HeadMirror.Idle);
    }

    method HandleSnapshotConfirmed(utxo: Utxos)
      modifies state
      ensures state.View() == HeadMirror.OnSnapshotConfirmed(old(state.View()), utxo)
    {
      state.headUtxos := utxo;
    }

    /** Creates the party's entry if it has none, then merges the outputs into it. */
    method HandleCommitted(party: Party, utxo: Utxos)
      modifies state
      ensures state.View() == HeadMirror.OnCommitted(old(state.View()), party, utxo)
    {
      var ownerKey := party.vkey;
      if ownerKey !in state.committedUtxos {
        state.committedUtxos := state.committedUtxos[ownerKey := map[]];
      }
      state.committedUtxos := state.committedUtxos[ownerKey := HeadMirror.MergeUtxos(state.committedUtxos[ownerKey], utxo)];
    }

    method HandleHeadIsClosed(deadline: Timestamp)
      modifies state
      ensures state.View() == HeadMirror.OnHeadIsClosed(old(state.View()), deadline)
    {
      state.contestationDeadline := Some(deadline);
      state.Transition(HeadMirror.Closed);
    }

    method HandleHeadIsOpen(utxo: Utxos)
      modifies state
      ensures state.View() == HeadMirror.OnHeadIsOpen(old(state.View()), utxo)
    {
      state.headUtxos := utxo;
      state.Transition(HeadMirror.Open);
    }

    method HandleReadyToFanout()
      modifies state
      ensures state.View() == HeadMirror.OnReadyToFanout(old(state.View()))
    {
      state.contestationDeadline := None;
      state.Transition(HeadMirror.FanoutPossible);
    }

    method HandleHeadIsFinalized()
      modifies state
      ensures state.View() == HeadMirror.OnHeadIsFinalized(old(state.View()))
    {
      state.Transition(HeadMirror.Final);
    }

    method HandleGetUTxOResponse(utxo: Utxos)
      modifies state
      ensures state.View() == HeadMirror.OnGetUTxOResponse(old(state.View()), utxo)
    {
      state.headUtxos := utxo;
    }
  }
}
