/** The client as a value: its replay flag, its node state, its listeners,
    its connection and what it has sent and delivered. Each client operation
    is a function on a `Session`; the class `Client.HydraClient` is proved
    against them. */
module ClientSpec {
  import opened Protocol
  import opened HeadMirror
  import opened Listeners

  /** The identity of an open web socket. */
  type Connection = nat

  datatype ClientError =
    | UnexpectedServerResponseTag(tag: string)
    | NotConnected

  datatype Result<+T> = Ok(value: T) | Err(error: ClientError)

  /** A command written to a connection. */
  datatype Outgoing = Outgoing(conn: Connection, command: ClientInput)

  datatype Session = Session(
    isLoadingHistory: bool,
    state: Mirror,
    listeners: seq<ListenerId>,
    ws: Option<Connection>,
    launched: bool,
    outbox: seq<Outgoing>,
    log: seq<Notification>)

  /** A new client: replaying history, fresh node state, no listeners, no
      connection, not launched. */
  function InitialSession(): Session
  {
    Session(true, HeadMirror.Initial(), [], None, false, [], [])
  }

  /** One server record: the handler runs first (an unknown tag raises an
      error and changes nothing), then, if the client is no longer replaying
      history, the record goes to every listener in order. */
  function Step(s: Session, r: DecodedResponse): (res: Result<Session>)
    ensures res.Err? <==> r.payload.Unknown?
    ensures res.Err? ==> res.error == UnexpectedServerResponseTag(r.payload.tag)
    ensures res.Ok? ==>
      res.value.(isLoadingHistory := s.isLoadingHistory, state := s.state, log := s.log) == s
  {
    match Apply(s.state, r)
    case None => Err(UnexpectedServerResponseTag(r.payload.tag))
    case Some(m) =>
      var loading := if r.payload.Greetings? then false else s.isLoadingHistory;
      var log := if loading then s.log else s.log + Broadcast(s.listeners, r);
      Ok(s.(isLoadingHistory := loading, state := m, log := log))
  }

  /** The session after a record has been handed over: a record whose
      handling raised an error leaves it as it was. */
  function Deliver(s: Session, r: DecodedResponse): Session
  {
    match Step(s, r)
    case Ok(s') => s'
    case Err(_) => s
  }

  /** The session after a stream of records, one at a time, in order. */
  function Run(s: Session, rs: seq<DecodedResponse>): Session
    decreases |rs|
  {
    if rs == [] then s else Run(Deliver(s, rs[0]), rs[1..])
  }

  /** The mirror after a stream of records, skipping the unknown ones. */
  function ApplyAll(m: Mirror, rs: seq<DecodedResponse>): Mirror
    decreases |rs|
  {
    if rs == [] then m
    else match Apply(m, rs[0])
      case Some(m') => ApplyAll(m', rs[1..])
      case None => ApplyAll(m, rs[1..])
  }

  /** The notifications a live client makes for a stream: each known record
      to every listener, record after record. */
  function LiveLog(ls: seq<ListenerId>, rs: seq<DecodedResponse>): seq<Notification>
    decreases |rs|
  {
    if rs == [] then []
    else (if rs[0].payload.Unknown? then [] else Broadcast(ls, rs[0])) + LiveLog(ls, rs[1..])
  }

  predicate NoGreetings(rs: seq<DecodedResponse>)
  {
    forall i :: 0 <= i < |rs| ==> !rs[i].payload.Greetings?
  }

  // The replay gate, one record at a time.

  /** An unknown tag raises an error before any fan-out: the flag, the node
      state and the log are left as they were. */
  lemma UnknownTagChangesNothing(s: Session, r: DecodedResponse)
    requires r.payload.Unknown?
    ensures Step(s, r) == Err(UnexpectedServerResponseTag(r.payload.tag))
    ensures Deliver(s, r) == s
  {
  }

  /** While history is replaying, a record other than Greetings updates the
      node state and notifies nobody. */
  lemma ReplayedRecordIsSilent(s: Session, r: DecodedResponse)
    requires s.isLoadingHistory && !r.payload.Greetings? && !r.payload.Unknown?
    ensures Step(s, r).Ok?
    ensures Step(s, r).value.isLoadingHistory
    ensures Step(s, r).value.state == Apply(s.state, r).value
    ensures Step(s, r).value.log == s.log
  {
  }

  /** Once live (including the Greetings that ends the replay), a known
      record reaches every listener once, in list order, after everything
      logged before. */
  lemma LiveRecordReachesEveryListener(s: Session, r: DecodedResponse)
    requires (!s.isLoadingHistory || r.payload.Greetings?) && !r.payload.Unknown?
    ensures Step(s, r).Ok? && !Step(s, r).value.isLoadingHistory
    ensures var log := Step(s, r).value.log;
      && |log| == |s.log| + |s.listeners|
      && log[..|s.log|] == s.log
      && forall i :: 0 <= i < |s.listeners| ==> log[|s.log| + i] == Notification(s.listeners[i], r)
  {
  }

  // The replay gate over a stream of records.

  /** A stream changes neither the listeners, the connection, the launch flag
      nor the outbox, and leaves the node state its handlers compute. */
  lemma {:induction false} RunFrame(s: Session, rs: seq<DecodedResponse>)
    ensures Run(s, rs).(isLoadingHistory := s.isLoadingHistory, state := s.state, log := s.log) == s
    ensures Run(s, rs).state == ApplyAll(s.state, rs)
    decreases |rs|
  {
    if rs != [] {
      RunFrame(Deliver(s, rs[0]), rs[1..]);
    }
  }

  /** Over any stream of records, an idle head never has a head id. */
  lemma {:induction false} HeadIdInvAlongStream(m: Mirror, rs: seq<DecodedResponse>)
    requires HeadIdInv(m)
    ensures HeadIdInv(ApplyAll(m, rs))
    decreases |rs|
  {
    if rs != [] {
      HeadIdInvPreserved(m, rs[0]);
      match Apply(m, rs[0])
      case Some(m') => HeadIdInvAlongStream(m', rs[1..]);
      case None => HeadIdInvAlongStream(m, rs[1..]);
    }
  }

  /** The flag only falls: the client is still replaying after a stream
      exactly when it was replaying before and the stream held no Greetings. */
  lemma {:induction false} LoadingOnlyFalls(s: Session, rs: seq<DecodedResponse>)
    ensures Run(s, rs).isLoadingHistory <==> s.isLoadingHistory && NoGreetings(rs)
    decreases |rs|
  {
    if rs != [] {
      LoadingOnlyFalls(Deliver(s, rs[0]), rs[1..]);
      assert NoGreetings(rs) <==> !rs[0].payload.Greetings? && NoGreetings(rs[1..]) by {
        if !rs[0].payload.Greetings? && NoGreetings(rs[1..]) {
          forall i | 0 <= i < |rs| ensures !rs[i].payload.Greetings? {
            if i > 0 { assert rs[i] == rs[1..][i - 1]; }
          }
        }
      }
    }
  }

  /** A replayed history without Greetings notifies nobody. */
  lemma {:induction false} ReplayIsSilent(s: Session, rs: seq<DecodedResponse>)
    requires s.isLoadingHistory && NoGreetings(rs)
    ensures Run(s, rs).log == s.log
    decreases |rs|
  {
    if rs != [] {
      assert NoGreetings(rs[1..]) by {
        forall i | 0 <= i < |rs[1..]| ensures !rs[1..][i].payload.Greetings? {
          assert rs[1..][i] == rs[i + 1];
        }
      }
      ReplayIsSilent(Deliver(s, rs[0]), rs[1..]);
    }
  }

  /** A live client notifies, for each known record in arrival order, every
      listener in list order. */
  lemma {:induction false} LiveDeliveryInOrder(s: Session, rs: seq<DecodedResponse>)
    requires !s.isLoadingHistory
    ensures Run(s, rs).log == s.log + LiveLog(s.listeners, rs)
    decreases |rs|
  {
    if rs != [] {
      var s' := Deliver(s, rs[0]);
      var head := if rs[0].payload.Unknown? then [] else Broadcast(s.listeners, rs[0]);
      assert s'.log == s.log + head && s'.listeners == s.listeners && !s'.isLoadingHistory;
      LiveDeliveryInOrder(s', rs[1..]);
      AppendAssociates(s.log, head, LiveLog(s.listeners, rs[1..]));
    }
  }

  /** Records are handled one after another: a stream split in two runs as
      its first part followed by its second. */
  lemma {:induction false} RunSplits(s: Session, rs: seq<DecodedResponse>, k: nat)
    requires k <= |rs|
    ensures Run(s, rs) == Run(Run(s, rs[..k]), rs[k..])
    decreases k
  {
    if k > 0 {
      assert rs[..k][0] == rs[0] && rs[..k][1..] == rs[1..][..k - 1];
      assert rs[k..] == rs[1..][k - 1..];
      RunSplits(Deliver(s, rs[0]), rs[1..], k - 1);
    }
  }

  /** The whole gate: a client that is replaying history notifies nothing
      for the records before the first Greetings, and from that Greetings on
      (itself included) notifies every listener of every known record, in
      order. */
  lemma ReplayThenLive(s: Session, rs: seq<DecodedResponse>, k: nat)
    requires s.isLoadingHistory
    requires k < |rs| && rs[k].payload.Greetings? && NoGreetings(rs[..k])
    ensures Run(s, rs).log == s.log + LiveLog(s.listeners, rs[k..])
  {
    RunSplits(s, rs, k);
    var replayed := Run(s, rs[..k]);
    ReplayIsSilent(s, rs[..k]);
    LoadingOnlyFalls(s, rs[..k]);
    RunFrame(s, rs[..k]);
    assert replayed.log == s.log && replayed.listeners == s.listeners;
    GreetingsThenLive(replayed, rs[k..]);
  }

  /** Helper: a stream that opens with Greetings is live from its first record on. */
  lemma GreetingsThenLive(s: Session, rs: seq<DecodedResponse>)
    requires rs != [] && rs[0].payload.Greetings?
    ensures Run(s, rs).log == s.log + LiveLog(s.listeners, rs)
  {
    var greeted := Deliver(s, rs[0]);
    GreetingsGoesLive(s, rs[0]);
    LiveDeliveryInOrder(greeted, rs[1..]);
    assert Run(s, rs) == Run(greeted, rs[1..]);
    var b := Broadcast(s.listeners, rs[0]);
    assert LiveLog(s.listeners, rs) == b + LiveLog(s.listeners, rs[1..]);
    AppendAssociates(s.log, b, LiveLog(s.listeners, rs[1..]));
  }

  /** Helper: regrouping appended logs. */
  lemma AppendAssociates(a: seq<Notification>, b: seq<Notification>, c: seq<Notification>)
    ensures a + b + c == a + (b + c)
  {
  }

  /** Helper: the Greetings ends the replay and is itself fanned out. */
  lemma GreetingsGoesLive(s: Session, r: DecodedResponse)
    requires r.payload.Greetings?
    ensures !Deliver(s, r).isLoadingHistory
    ensures Deliver(s, r).listeners == s.listeners
    ensures Deliver(s, r).log == s.log + Broadcast(s.listeners, r)
  {
  }

  // The listener registry, the connection and sending.

  /** Registers a listener at the end of the list, duplicates included. */
  function OnMessage(s: Session, cb: ListenerId): (s': Session)
    ensures |s'.listeners| == |s.listeners| + 1 && s'.listeners[..|s.listeners|] == s.listeners
    ensures s'.listeners[|s.listeners|] == cb
    ensures s'.(listeners := s.listeners) == s
  {
    s.(listeners := s.listeners + [cb])
  }

  /** Unregisters every occurrence of a listener, keeping the rest in order. */
  function OffMessage(s: Session, cb: ListenerId): (s': Session)
    ensures cb !in s'.listeners
    ensures forall x :: x != cb ==> Occurrences(s'.listeners, x) == Occurrences(s.listeners, x)
    ensures s'.(listeners := s.listeners) == s
  {
    forall x | x != cb ensures Occurrences(Without(s.listeners, cb), x) == Occurrences(s.listeners, x) {
      WithoutCounts(s.listeners, cb, x);
    }
    s.(listeners := Without(s.listeners, cb))
  }

  /** Drops the connection and every listener; the node state stays as the
      last known snapshot. */
  function Close(s: Session): (s': Session)
    ensures s'.ws.None? && s'.listeners == []
    ensures s'.state == s.state && s'.isLoadingHistory == s.isLoadingHistory
    ensures s'.(ws := s.ws, listeners := s.listeners) == s
  {
    s.(ws := None, listeners := [])
  }

  /** Sending needs an open connection; the command goes out on it. */
  function Send(s: Session, command: ClientInput): (res: Result<Session>)
    ensures res.Err? <==> s.ws.None?
    ensures res.Err? ==> res.error == NotConnected
    ensures res.Ok? ==> res.value.outbox == s.outbox + [Outgoing(s.ws.value, command)]
    ensures res.Ok? ==> res.value.(outbox := s.outbox) == s
  {
    if s.ws.None? then Err(NotConnected)
    else Ok(s.(outbox := s.outbox + [Outgoing(s.ws.value, command)]))
  }

  /** Launching marks the client launched; launching again is refused as a no-op. */
  function Launch(s: Session): (res: (bool, Session))
    ensures res.0 == !s.launched
    ensures res.1.launched && res.1.(launched := s.launched) == s
  {
    (!s.launched, s.(launched := true))
  }

  /** The socket has opened: it becomes the client's connection. */
  function Opened(s: Session, conn: Connection): (s': Session)
    ensures s'.ws == Some(conn) && s'.(ws := s.ws) == s
  {
    s.(ws := Some(conn))
  }

  /** Nothing a listener can be registered or removed with touches the node
      state or the replay flag, and a closed client's state is frozen. */
  lemma RegistryLeavesState(s: Session, cb: ListenerId)
    ensures OnMessage(s, cb).state == s.state && OffMessage(s, cb).state == s.state
    ensures OnMessage(s, cb).isLoadingHistory == s.isLoadingHistory
    ensures OffMessage(s, cb).isLoadingHistory == s.isLoadingHistory
    ensures Close(Close(s)) == Close(s)
  {
  }

  /** A closed client notifies nobody of further records, yet keeps
      updating its node state from them. */
  lemma {:induction false} ClosedClientNotifiesNobody(s: Session, rs: seq<DecodedResponse>)
    ensures Run(Close(s), rs).log == s.log
    ensures Run(Close(s), rs).state == ApplyAll(s.state, rs)
  {
    RunFrame(Close(s), rs);
    ClosedRunSilent(Close(s), rs);
  }

  /** Helper: with no listeners, a stream logs nothing. */
  lemma {:induction false} ClosedRunSilent(s: Session, rs: seq<DecodedResponse>)
    requires s.listeners == []
    ensures Run(s, rs).log == s.log
    decreases |rs|
  {
    if rs != [] {
      var s' := Deliver(s, rs[0]);
      assert Broadcast(s.listeners, rs[0]) == [];
      assert s'.log == s.log && s'.listeners == [];
      ClosedRunSilent(s', rs[1..]);
    }
  }

  /** A session that starts with a replayed head initialisation, then the
      Greetings, then a live commit and the opening of the head, subscribed
      to after the Greetings: the head is open on the opening's outputs and
      the listener saw exactly the commit and the opening, in that order. */
  lemma OpenScenario(init: DecodedResponse, greet: DecodedResponse, commit: DecodedResponse,
                     open: DecodedResponse, cb: ListenerId)
    requires init.payload.HeadIsInitializing? && greet.payload.Greetings?
    requires commit.payload.Committed? && open.payload.HeadIsOpen?
    ensures var s0 := InitialSession();
      var s1 := Deliver(Deliver(s0, init), greet);
      var s2 := Deliver(Deliver(OnMessage(s1, cb), commit), open);
      && s1.log == []
      && s2.state.stateKind == Open
      && s2.state.headUtxos == open.payload.utxo
      && s2.state.headId == Some(init.headId)
      && s2.log == [Notification(cb, commit), Notification(cb, open)]
  {
  }
}
