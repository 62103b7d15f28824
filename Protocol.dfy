/** Records exchanged with a Hydra node, as the client sees them once decoded.
    The wire encoding (JSON) is not modelled: a record arrives already tagged. */
module Protocol {

  datatype Option<+T> = None | Some(value: T)

  /** A multi-asset amount. Its contents are not modelled; it is kept opaque. */
  datatype Value = Value(encoded: string)

  /** One unspent output. */
  datatype Utxo = Utxo(
    address: string,
    datumhash: Option<string>,
    inlineDatum: Option<string>,
    referenceScript: Option<string>,
    value: Value)

  /** Unspent outputs keyed by their output reference. */
  type Utxos = map<string, Utxo>

  /** A head participant, identified by its verification key. */
  datatype Party = Party(vkey: string)

  /** A transaction payload; its body and witnesses are not modelled. */
  datatype Transaction = Transaction(id: string, isValid: bool, auxiliaryData: string)

  /** A point in time as announced by the node; kept opaque. */
  type Timestamp = string

  datatype ConfirmedSnapshot = ConfirmedSnapshot(snapshotNumber: int, utxo: Utxos)

  datatype HeadParameters = HeadParameters(contestationPeriod: int, parties: seq<Party>)

  datatype PostTxError = PostTxError(tag: string, redeemerPtr: string, failureReason: string)

  /** The tag-specific part of a server record: one variant per tag the client
      knows, and `Unknown` for any other tag. */
  datatype Payload =
    | Greetings(me: Party, headStatus: string, snapshotUtxo: Utxos)
    | PeerConnected(peer: string)
    | PeerDisconnected(peer: string)
    | HeadIsInitializing(parties: seq<Party>)
    | Committed(party: Party, utxo: Utxos)
    | HeadIsOpen(utxo: Utxos)
    | HeadIsClosed(snapshotNumber: int, contestationDeadline: Timestamp)
    | HeadIsContested(snapshotNumber: int)
    | ReadyToFanout
    | HeadIsAborted(utxo: Utxos)
    | TxValid(transaction: Transaction)
    | TxInvalid(transaction: Transaction, reason: string)
    | SnapshotConfirmed(snapshot: ConfirmedSnapshot, confirmedTransactions: seq<string>)
    | GetUTxOResponse(utxo: Utxos)
    | InvalidInput(reason: string, input: string)
    | PostTxOnChainFailed(postChainTx: string, headParameters: HeadParameters, postTxError: PostTxError)
    | CommandFailed(clientInput: string)
    | HeadIsFinalized(utxo: Utxos)
    | Unknown(tag: string)

  /** A server record: the header every record carries, and its payload. */
  datatype ServerResponse = ServerResponse(
    timestamp: Timestamp,
    seqNumber: int,
    headId: string,
    payload: Payload)

  /** The tag a payload travels under. */
  function Tag(p: Payload): string
  {
    match p
    case Greetings(_, _, _) => "Greetings"
    case PeerConnected(_) => "PeerConnected"
    case PeerDisconnected(_) => "PeerDisconnected"
    case HeadIsInitializing(_) => "HeadIsInitializing"
    case Committed(_, _) => "Committed"
    case HeadIsOpen(_) => "HeadIsOpen"
    case HeadIsClosed(_, _) => "HeadIsClosed"
    case HeadIsContested(_) => "HeadIsContested"
    case ReadyToFanout => "ReadyToFanout"
    case HeadIsAborted(_) => "HeadIsAborted"
    case TxValid(_) => "TxValid"
    case TxInvalid(_, _) => "TxInvalid"
    case SnapshotConfirmed(_, _) => "SnapshotConfirmed"
    case GetUTxOResponse(_) => "GetUTxOResponse"
    case InvalidInput(_, _) => "InvalidInput"
    case PostTxOnChainFailed(_, _, _) => "PostTxOnChainFailed"
    case CommandFailed(_) => "CommandFailed"
    case HeadIsFinalized(_) => "HeadIsFinalized"
    case Unknown(t) => t
  }

  /** The eighteen tags the client dispatches on. */
  const KnownTags: set<string> := {
    "Greetings", "PeerConnected", "PeerDisconnected", "HeadIsInitializing",
    "Committed", "HeadIsOpen", "HeadIsClosed", "HeadIsContested",
    "ReadyToFanout", "HeadIsAborted", "TxValid", "TxInvalid",
    "SnapshotConfirmed", "GetUTxOResponse", "InvalidInput",
    "PostTxOnChainFailed", "CommandFailed", "HeadIsFinalized" }

  /** A decoded payload is `Unknown` exactly when its tag is none of the known ones. */
  predicate WellTagged(p: Payload)
  {
    p.Unknown? ==> p.tag !in KnownTags
  }

  /** A decoded record: one whose payload is well tagged. A record with a
      known tag is always decoded as that tag's variant. */
  type DecodedResponse = r: ServerResponse | WellTagged(r.payload)
    witness ServerResponse("", 0, "", ReadyToFanout)

  /** For a well-tagged payload, the tag alone decides whether the client
      knows the record. */
  lemma TagDecidesKnown(p: Payload)
    requires WellTagged(p)
    ensures Tag(p) in KnownTags <==> !p.Unknown?
  {
  }

  /** Each known tag names exactly one variant: the record with that tag,
      and only it, is the variant of that name. */
  lemma TagNamesVariant(p: Payload)
    requires WellTagged(p)
    ensures Tag(p) == "Greetings" <==> p.Greetings?
    ensures Tag(p) == "PeerConnected" <==> p.PeerConnected?
    ensures Tag(p) == "PeerDisconnected" <==> p.PeerDisconnected?
    ensures Tag(p) == "HeadIsInitializing" <==> p.HeadIsInitializing?
    ensures Tag(p) == "Committed" <==> p.Committed?
    ensures Tag(p) == "HeadIsOpen" <==> p.HeadIsOpen?
    ensures Tag(p) == "HeadIsClosed" <==> p.HeadIsClosed?
    ensures Tag(p) == "HeadIsContested" <==> p.HeadIsContested?
    ensures Tag(p) == "ReadyToFanout" <==> p.ReadyToFanout?
    ensures Tag(p) == "HeadIsAborted" <==> p.HeadIsAborted?
    ensures Tag(p) == "TxValid" <==> p.TxValid?
    ensures Tag(p) == "TxInvalid" <==> p.TxInvalid?
    ensures Tag(p) == "SnapshotConfirmed" <==> p.SnapshotConfirmed?
    ensures Tag(p) == "GetUTxOResponse" <==> p.GetUTxOResponse?
    ensures Tag(p) == "InvalidInput" <==> p.InvalidInput?
    ensures Tag(p) == "PostTxOnChainFailed" <==> p.PostTxOnChainFailed?
    ensures Tag(p) == "CommandFailed" <==> p.CommandFailed?
    ensures Tag(p) == "HeadIsFinalized" <==> p.HeadIsFinalized?
  {
  }

  /** Whether two payloads are the same variant. */
  predicate SameVariant(p: Payload, q: Payload)
  {
    && (p.Greetings? <==> q.Greetings?)
    && (p.PeerConnected? <==> q.PeerConnected?)
    && (p.PeerDisconnected? <==> q.PeerDisconnected?)
    && (p.HeadIsInitializing? <==> q.HeadIsInitializing?)
    && (p.Committed? <==> q.Committed?)
    && (p.HeadIsOpen? <==> q.HeadIsOpen?)
    && (p.HeadIsClosed? <==> q.HeadIsClosed?)
    && (p.HeadIsContested? <==> q.HeadIsContested?)
    && (p.ReadyToFanout? <==> q.ReadyToFanout?)
    && (p.HeadIsAborted? <==> q.HeadIsAborted?)
    && (p.TxValid? <==> q.TxValid?)
    && (p.TxInvalid? <==> q.TxInvalid?)
    && (p.SnapshotConfirmed? <==> q.SnapshotConfirmed?)
    && (p.GetUTxOResponse? <==> q.GetUTxOResponse?)
    && (p.InvalidInput? <==> q.InvalidInput?)
    && (p.PostTxOnChainFailed? <==> q.PostTxOnChainFailed?)
    && (p.CommandFailed? <==> q.CommandFailed?)
    && (p.HeadIsFinalized? <==> q.HeadIsFinalized?)
    && (p.Unknown? <==> q.Unknown?)
  }

  /** Equal tags mean the same variant: the dispatch on the tag string and the
      match on the variant agree. */
  lemma {:induction false} TagIdentifiesVariant(p: Payload, q: Payload)
    requires WellTagged(p) && WellTagged(q) && Tag(p) == Tag(q)
    ensures SameVariant(p, q)
  {
    TagNamesVariant(p);
    TagNamesVariant(q);
  }

  /** The commands a client can send to the node. */
  datatype ClientInput =
    | Init
    | Abort
    | GetUTxO
    | Close
    | Fanout
    | Contest
    | NewTx(transaction: string)
}
