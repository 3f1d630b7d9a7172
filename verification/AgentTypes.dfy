/** Values the SIP user agent works with: parsed messages, requests it sends, its tables, and the traces it leaves. */
module AgentTypes {
  import opened Prelude

  // Times are milliseconds. RFC 3261 timers.
  const T1: int := 500
  const T2: int := 4000
  const TRANSACTION_TIMEOUT: int := 64 * T1
  const INVITE_AFTER_PROVISIONAL: int := 180000
  const REGISTER_RETRY: int := 30000
  const MINIMUM_REFRESH: int := 5000

  /** The tag of the one crypto line this side offers. */
  const OFFER_TAG: nat := 1
  const KEY_LENGTH: nat := 30
  const PCMA: nat := 8

  /** Random branches, tags and Call-IDs are names drawn from a supply that never repeats. */
  type Name = nat

  datatype Method = REGISTER | INVITE | ACK | CANCEL | BYE | OPTIONS | Other(text: string)

  datatype CallId = Own(name: Name) | Peer(text: string)

  datatype Uri = Domain | Extension(target: string) | Text(text: string)

  /** The From and To of a request. */
  datatype Party =
    | Account
    | Local(tag: Name)
    | Callee(uri: Uri)
    | Header(text: string)
    | Tagged(text: string, tag: Name)

  type SrtpKey = k: seq<byte> | |k| == KEY_LENGTH witness seq(KEY_LENGTH, _ => 0)

  /** A usable crypto line of a session description. */
  datatype Crypto = Crypto(tag: nat, key: SrtpKey)

  /** The audio stream of a session description. */
  datatype Audio = Audio(address: string, port: nat, payloadTypes: seq<nat>, savp: bool, crypto: seq<Crypto>) {
    predicate OffersPcma() { PCMA in payloadTypes }
  }

  datatype LocalCrypto = LocalCrypto(savp: bool, tag: nat, key: seq<byte>)

  /** What this side's session description is built from. */
  datatype LocalSdp = LocalSdp(port: nat, session: nat, version: nat, crypto: Option<LocalCrypto>)

  datatype MediaKeys = MediaKeys(local: seq<byte>, remote: seq<byte>)

  datatype RemoteMedia = RemoteMedia(address: string, port: nat, srtp: Option<MediaKeys>)

  datatype Config = Config(reliable: bool, srtp: bool, registerExpires: nat)

  // ---- Requests and client transactions ----

  /** A request this side sends; `owner` is the call it was sent for. */
  datatype Request = Request(verb: Method, uri: Uri, from: Party, to: Party, callId: CallId, cseq: nat,
                             expires: Option<nat>, authorization: Option<string>, body: Option<LocalSdp>,
                             owner: Option<int>)

  /** What the INVITE transaction needs to finish itself even after the call is gone. */
  datatype InviteContext = InviteContext(callId: int, uri: Uri, from: Party, sipCallId: CallId, cseq: nat, branch: Name)

  /** What happens when a transaction gets its final response, times out or loses its connection. */
  datatype Handler =
    | RegisterFinal(expires: nat, authenticated: bool)
    | InviteFinal(context: InviteContext)
    | Ignore

  datatype Key = Key(branch: Name, verb: Method)

  datatype Transaction = Transaction(request: Request, retransmitting: bool, interval: int, retransmitAt: int,
                                     deadline: int, handler: Handler)

  // ---- Calls ----

  datatype CallState = Calling | Ringing | Answering | Confirmed

  datatype AckMessage = AckMessage(uri: Uri, from: Party, to: Party, callId: CallId, cseq: nat, branch: Name)

  /** A response this side sends; `owner` is the call whose INVITE it answers with a session description. */
  datatype Reply = Reply(status: int, callId: CallId, tag: Option<Name>, sdp: Option<LocalSdp>, owner: Option<int>)

  datatype Call = Call(
    id: int, outgoing: bool, state: CallState, sipCallId: CallId, localTag: Name,
    localHeader: Party, remoteHeader: Party, remoteTarget: Uri, remoteUri: Uri, localCseq: nat,
    mediaOpen: bool, localSdp: Option<LocalSdp>, mediaPort: nat, sdpSession: nat, sdpVersion: nat, srtpKey: seq<byte>,
    // outgoing
    inviteUri: Uri, inviteBranch: Name, inviteCseq: nat, authenticated: bool, provisional: bool, lastProgress: int,
    cancelRequested: bool, cancelSent: bool, ack: Option<AckMessage>,
    // incoming
    offer: Audio, lastResponse: Option<Reply>, resendInterval: int, resendAt: int, ackDeadline: int)

  datatype Registration = Registration(wanted: bool, registered: bool, inFlight: bool, cseq: nat,
                                       nextAttempt: Option<int>)

  // ---- Events ----

  datatype EventKind = Registered | Incoming | Progress | Answered | Ended

  datatype EndReason =
    NoReason | LocalEnd | RemoteHangup | RemoteCancelled | Rejected | Timeout | MediaFailed | Shutdown

  datatype Event = Event(kind: EventKind, callId: int, status: int, reason: EndReason)

  datatype CommandResult = Ok | InvalidArgument | State | NotFound

  // ---- What arrives ----

  /**
   * A parsed response, as far as the agent reads it. `verb` is the CSeq method when the CSeq parses, `authorization`
   * the credentials computed for its challenge, `granted` the lifetime it grants, `answer` its parsed body.
   */
  datatype Response = Response(status: int, branch: Name, verb: Option<Method>, callId: CallId, to: string,
                               contact: Option<string>, authorization: Option<string>, granted: Option<nat>,
                               answer: Option<Audio>)

  /** A parsed request. `complete` says that Via, From, To, Call-ID and a well-formed CSeq are present. */
  datatype Query = Query(verb: Method, complete: bool, callId: CallId, from: string, fromUri: string, to: string,
                         contact: Option<string>, bodyEmpty: bool, offer: Option<Audio>)

  /** What the surroundings answer during one input: the media port (0 on failure), a random key, if media started. */
  datatype Host = Host(port: nat, key: Option<SrtpKey>, session: nat, startOk: bool)

  // ---- Traces ----

  datatype Cause = Direct | Timer | RepeatedInvite

  /** SIP traffic and the facts about it that requests depend on, in order. */
  datatype Wire =
    | Created(key: Key, request: Request)        // first copy of a request
    | Repeated(key: Key, request: Request)       // retransmission
    | Acked(ack: AckMessage, owner: int)
    | Responded(reply: Reply, cause: Cause)
    | Heard(key: Key)                            // a provisional response to a live request
    | HangupAsked(callId: int)

  /**
   * Why media was started: an answer to the INVITE with the given branch, or an offer, which `local` is this side's
   * answer to.
   */
  datatype Origin = ByAnswer(answer: Audio, branch: Name) | ByOffer(offer: Audio, local: Option<LocalSdp>)

  datatype MediaAct =
    | Opened(owner: int, port: nat)
    | Started(owner: int, remote: RemoteMedia, ok: bool, origin: Origin)
    | Closed(owner: int)

  /** A call coming into being. */
  datatype Born = Born(id: int, outgoing: bool)
}
