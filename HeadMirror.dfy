/** The client's mirror of a Hydra head, as a value, and the effect of each
    server record on it. The class `NodeStates.NodeState` holds the same data
    in mutable fields; its `View()` is a `Mirror`. */
module HeadMirror {
  import opened Protocol

  /** The lifecycle phase of the head. */
  datatype NodeStateKind = Initializing | Open | Closed | FanoutPossible | Final | Idle

  const AllKinds: set<NodeStateKind> := {Initializing, Open, Closed, FanoutPossible, Final, Idle}

  /** The mirror: every field of a node state. */
  datatype Mirror = Mirror(
    stateKind: NodeStateKind,
    peers: set<string>,
    parties: seq<Party>,
    headId: Option<string>,
    committedUtxos: map<string, Utxos>,
    headUtxos: Utxos,
    nodeId: Option<string>,
    contestationDeadline: Option<Timestamp>)

  /** The mirror of a freshly created node state. */
  function Initial(): Mirror
  {
    Mirror(Idle, {}, [], None, map[], map[], None, None)
  }

  /** A fresh node state is idle, knows nothing and has no head. */
  lemma InitialIsEmpty()
    ensures Initial().stateKind == Idle
    ensures Initial().peers == {} && Initial().parties == []
    ensures Initial().committedUtxos == map[] && Initial().headUtxos == map[]
    ensures Initial().headId.None? && Initial().nodeId.None? && Initial().contestationDeadline.None?
  {
  }

  /** There are exactly six phases. */
  lemma SixKinds(k: NodeStateKind)
    ensures k in AllKinds
    ensures |AllKinds| == 6
  {
    assert AllKinds == {Initializing} + {Open} + {Closed} + {FanoutPossible} + {Final} + {Idle};
  }

  /** Moving to phase `k`. The phase is overwritten whatever it was. */
  function Transition(m: Mirror, k: NodeStateKind): (r: Mirror)
    ensures r.stateKind == k
    ensures r.(stateKind := m.stateKind) == m
  {
    m.(stateKind := k)
  }

  /** Every phase can be reached from every phase, and a repeated transition
      changes nothing more. */
  lemma TransitionTotalAndIdempotent(m: Mirror, k: NodeStateKind)
    ensures forall from: NodeStateKind :: Transition(m.(stateKind := from), k) == m.(stateKind := k)
    ensures Transition(Transition(m, k), k) == Transition(m, k)
  {
  }

  /** Key-wise merge of two output sets, where `update` wins on a shared key. */
  function MergeUtxos(base: Utxos, update: Utxos): (r: Utxos)
    ensures r.Keys == base.Keys + update.Keys
    ensures forall k :: k in update ==> r[k] == update[k]
    ensures forall k :: k in base && k !in update ==> r[k] == base[k]
  {
    base + update
  }

  // One function per handler: the effect of a record on the mirror.

  function OnGreetings(m: Mirror, me: Party): Mirror
  {
    m.(nodeId := Some(me.vkey))
  }

  function OnPeerConnected(m: Mirror, peer: string): Mirror
  {
    m.(peers := m.peers + {peer})
  }

  function OnPeerDisconnected(m: Mirror, peer: string): Mirror
  {
    m.(peers := m.peers - {peer})
  }

  function OnHeadIsInitializing(m: Mirror, headId: string, parties: seq<Party>): Mirror
  {
    Transition(m, Initializing).(committedUtxos := map[], headId := Some(headId), parties := parties)
  }

  function OnHeadIsAborted(m: Mirror): Mirror
  {
    Transition(m.(parties := [], committedUtxos := map[], headId := None), Idle)
  }

  function OnSnapshotConfirmed(m: Mirror, utxo: Utxos): Mirror
  {
    m.(headUtxos := utxo)
  }

  /** What a party has committed so far; nothing if it has not committed. */
  function CommittedBy(m: Mirror, owner: string): Utxos
  {
    if owner in m.committedUtxos then m.committedUtxos[owner] else map[]
  }

  function OnCommitted(m: Mirror, party: Party, utxo: Utxos): Mirror
  {
    m.(committedUtxos := m.committedUtxos[party.vkey := MergeUtxos(CommittedBy(m, party.vkey), utxo)])
  }

  function OnHeadIsClosed(m: Mirror, deadline: Timestamp): Mirror
  {
    Transition(m.(contestationDeadline := Some(deadline)), Closed)
  }

  function OnHeadIsOpen(m: Mirror, utxo: Utxos): Mirror
  {
    Transition(m.(headUtxos := utxo), Open)
  }

  function OnReadyToFanout(m: Mirror): Mirror
  {
    Transition(m.(contestationDeadline := None), FanoutPossible)
  }

  function OnHeadIsFinalized(m: Mirror): Mirror
  {
    Transition(m, Final)
  }

  function OnGetUTxOResponse(m: Mirror, utxo: Utxos): Mirror
  {
    m.(headUtxos := utxo)
  }

  /** Routes a record to its handler. An unknown tag has no handler: the
      client raises an error instead, and the mirror is left as it was. */
  function Apply(m: Mirror, r: DecodedResponse): (res: Option<Mirror>)
    ensures res.None? <==> r.payload.Unknown?
  {
    match r.payload
    case Greetings(me, _, _) => Some(OnGreetings(m, me))
    case PeerConnected(peer) => Some(OnPeerConnected(m, peer))
    case PeerDisconnected(peer) => Some(OnPeerDisconnected(m, peer))
    case HeadIsInitializing(parties) => Some(OnHeadIsInitializing(m, r.headId, parties))
    case Committed(party, utxo) => Some(OnCommitted(m, party, utxo))
    case HeadIsOpen(utxo) => Some(OnHeadIsOpen(m, utxo))
    case HeadIsClosed(_, deadline) => Some(OnHeadIsClosed(m, deadline))
    case HeadIsContested(_) => Some(m)
    case ReadyToFanout => Some(OnReadyToFanout(m))
    case HeadIsAborted(_) => Some(OnHeadIsAborted(m))
    case TxValid(_) => Some(m)
    case TxInvalid(_, _) => Some(m)
    case SnapshotConfirmed(snapshot, _) => Some(OnSnapshotConfirmed(m, snapshot.utxo))
    case GetUTxOResponse(utxo) => Some(OnGetUTxOResponse(m, utxo))
    case InvalidInput(_, _) => Some(m)
    case PostTxOnChainFailed(_, _, _) => Some(m)
    case CommandFailed(_) => Some(m)
    case HeadIsFinalized(_) => Some(OnHeadIsFinalized(m))
    case Unknown(_) => None
  }

  /** Dispatch follows the tag string: a record reaches a handler exactly
      when its tag is one of the eighteen known tags. */
  lemma DispatchFollowsTag(m: Mirror, r: DecodedResponse)
    ensures Apply(m, r).Some? <==> Tag(r.payload) in KnownTags
  {
    TagDecidesKnown(r.payload);
  }

  /** The head id is set no earlier than the move to Initializing and is
      cleared on the way back to Idle: an idle head has no id. */
  predicate HeadIdInv(m: Mirror)
  {
    m.stateKind == Idle ==> m.headId.None?
  }

  /** A fresh node state keeps the head-id invariant, and every handler
      preserves it. */
  lemma HeadIdInvPreserved(m: Mirror, r: DecodedResponse)
    ensures HeadIdInv(Initial())
    ensures HeadIdInv(m) && Apply(m, r).Some? ==> HeadIdInv(Apply(m, r).value)
  {
  }

  /** Greetings records the node's own key and touches nothing else, so a
      second Greetings only overwrites that key. */
  lemma GreetingsSetsOnlyNodeId(m: Mirror, r: DecodedResponse, r2: DecodedResponse)
    requires r.payload.Greetings? && r2.payload.Greetings?
    ensures Apply(m, r).Some?
    ensures Apply(m, r).value.nodeId == Some(r.payload.me.vkey)
    ensures Apply(m, r).value.(nodeId := m.nodeId) == m
    ensures Apply(Apply(m, r).value, r2) == Apply(m, r2)
  {
  }

  /** Peers form a set: a connect adds the peer, a disconnect removes it, a
      duplicate connect or a disconnect of an absent peer changes nothing,
      and no other field moves. */
  lemma PeerSetSemantics(m: Mirror, r: DecodedResponse)
    requires r.payload.PeerConnected? || r.payload.PeerDisconnected?
    ensures Apply(m, r).Some?
    ensures Apply(m, r).value.(peers := m.peers) == m
    ensures r.payload.PeerConnected? ==>
      (forall p :: p in Apply(m, r).value.peers <==> p in m.peers || p == r.payload.peer)
    ensures r.payload.PeerDisconnected? ==>
      (forall p :: p in Apply(m, r).value.peers <==> p in m.peers && p != r.payload.peer)
    ensures r.payload.PeerConnected? && r.payload.peer in m.peers ==> Apply(m, r) == Some(m)
    ensures r.payload.PeerDisconnected? && r.payload.peer !in m.peers ==> Apply(m, r) == Some(m)
  {
    if r.payload.PeerConnected? && r.payload.peer in m.peers {
      assert m.peers + {r.payload.peer} == m.peers;
    }
    if r.payload.PeerDisconnected? && r.payload.peer !in m.peers {
      assert m.peers - {r.payload.peer} == m.peers;
    }
  }

  /** A commit merges the event's outputs into the party's entry (created if
      absent): the keys are the union, the event wins on a shared key, and
      other parties and all other fields are untouched. */
  lemma CommittedMerges(m: Mirror, r: DecodedResponse)
    requires r.payload.Committed?
    ensures Apply(m, r).Some?
    ensures var owner, m' := r.payload.party.vkey, Apply(m, r).value;
      && m'.(committedUtxos := m.committedUtxos) == m
      && m'.committedUtxos.Keys == m.committedUtxos.Keys + {owner}
      && (forall q :: q in m.committedUtxos && q != owner ==> m'.committedUtxos[q] == m.committedUtxos[q])
      && m'.committedUtxos[owner].Keys == CommittedBy(m, owner).Keys + r.payload.utxo.Keys
      && (forall k :: k in r.payload.utxo ==> m'.committedUtxos[owner][k] == r.payload.utxo[k])
      && (forall k :: k in CommittedBy(m, owner) && k !in r.payload.utxo ==>
            m'.committedUtxos[owner][k] == CommittedBy(m, owner)[k])
  {
  }

  /** Two commits by the same party: nothing committed earlier is dropped,
      outputs with disjoint references accumulate, and on a shared reference
      the later commit wins. */
  lemma CommittedTwice(m: Mirror, party: Party, first: Utxos, second: Utxos)
    ensures var m' := OnCommitted(OnCommitted(m, party, first), party, second);
      && CommittedBy(m', party.vkey).Keys == CommittedBy(m, party.vkey).Keys + first.Keys + second.Keys
      && (forall k :: k in second ==> CommittedBy(m', party.vkey)[k] == second[k])
      && (forall k :: k in first && k !in second ==> CommittedBy(m', party.vkey)[k] == first[k])
      && (first.Keys !! second.Keys ==>
            forall k :: k in first ==> CommittedBy(m', party.vkey)[k] == first[k])
  {
    var once := OnCommitted(m, party, first);
    assert CommittedBy(once, party.vkey) == MergeUtxos(CommittedBy(m, party.vkey), first);
  }

  /** HeadIsInitializing starts a head from any phase: Initializing, no
      commits yet, the head id and parties taken from the record; the head
      outputs and everything else are kept. */
  lemma InitializingResets(m: Mirror, r: DecodedResponse)
    requires r.payload.HeadIsInitializing?
    ensures Apply(m, r).Some?
    ensures var m' := Apply(m, r).value;
      && m'.stateKind == Initializing
      && m'.committedUtxos == map[]
      && m'.headId == Some(r.headId)
      && m'.parties == r.payload.parties
      && m'.headUtxos == m.headUtxos
      && m'.(stateKind := m.stateKind, committedUtxos := m.committedUtxos,
             headId := m.headId, parties := m.parties) == m
  {
  }

  /** HeadIsAborted returns to Idle from any phase, with no parties, no
      commits and no head id; everything else is kept. */
  lemma AbortedClears(m: Mirror, r: DecodedResponse)
    requires r.payload.HeadIsAborted?
    ensures Apply(m, r).Some?
    ensures var m' := Apply(m, r).value;
      && m'.stateKind == Idle
      && m'.parties == [] && m'.committedUtxos == map[] && m'.headId.None?
      && m'.(stateKind := m.stateKind, committedUtxos := m.committedUtxos,
             headId := m.headId, parties := m.parties) == m
  {
  }

  /** The phase and head-output records, each from any prior phase. */
  lemma PhaseAndOutputEffects(m: Mirror, r: DecodedResponse)
    requires !r.payload.Unknown?
    ensures r.payload.HeadIsOpen? ==>
      Apply(m, r).value.stateKind == Open && Apply(m, r).value.headUtxos == r.payload.utxo
      && Apply(m, r).value.(stateKind := m.stateKind, headUtxos := m.headUtxos) == m
    ensures r.payload.HeadIsClosed? ==>
      Apply(m, r).value.stateKind == Closed
      && Apply(m, r).value.contestationDeadline == Some(r.payload.contestationDeadline)
      && Apply(m, r).value.(stateKind := m.stateKind, contestationDeadline := m.contestationDeadline) == m
    ensures r.payload.ReadyToFanout? ==>
      Apply(m, r).value.stateKind == FanoutPossible && Apply(m, r).value.contestationDeadline.None?
      && Apply(m, r).value.(stateKind := m.stateKind, contestationDeadline := m.contestationDeadline) == m
    ensures r.payload.HeadIsFinalized? ==>
      Apply(m, r).value == m.(stateKind := Final)
    ensures r.payload.GetUTxOResponse? ==>
      Apply(m, r).value == m.(headUtxos := r.payload.utxo)
  {
  }

  /** A confirmed snapshot replaces the head outputs wholesale and keeps the phase. */
  lemma SnapshotReplacesHeadUtxos(m: Mirror, r: DecodedResponse)
    requires r.payload.SnapshotConfirmed?
    ensures Apply(m, r).Some?
    ensures Apply(m, r).value.headUtxos == r.payload.snapshot.utxo
    ensures Apply(m, r).value.(headUtxos := m.headUtxos) == m
  {
  }

  /** The error records leave the mirror as it was. */
  lemma ErrorRecordsLeaveMirror(m: Mirror, r: DecodedResponse)
    requires r.payload.InvalidInput? || r.payload.PostTxOnChainFailed? || r.payload.CommandFailed?
    ensures Apply(m, r) == Some(m)
  {
  }

  /** The informational records leave the mirror as it was. */
  lemma InformationalRecordsLeaveMirror(m: Mirror, r: DecodedResponse)
    requires r.payload.HeadIsContested? || r.payload.TxValid? || r.payload.TxInvalid?
    ensures Apply(m, r) == Some(m)
  {
  }

  /** Only the phase records move the phase; every other record keeps it. */
  lemma PhaseMovesOnlyOnPhaseRecords(m: Mirror, r: DecodedResponse)
    requires !r.payload.Unknown?
    ensures Apply(m, r).value.stateKind != m.stateKind ==>
      || r.payload.HeadIsInitializing? || r.payload.HeadIsAborted? || r.payload.HeadIsOpen?
      || r.payload.HeadIsClosed? || r.payload.ReadyToFanout? || r.payload.HeadIsFinalized?
  {
  }
}
