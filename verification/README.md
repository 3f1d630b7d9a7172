# KetPhone in Dafny

KetPhone is a small SIP and RTP stack. This project models the parts of it that are written without sockets or clocks,
and proves what they promise over whole runs: which events an application sees, that no dialog is left half open, that
media is keyed and closed, that retransmission and shutdown end, that no byte, frame, command or value is lost or
repeated on its way through a queue.

`dafny verify dfyconfig.toml` checks everything.

## Layout

| files | what they hold |
|---|---|
| `Prelude.dfy`, `Text.dfy` | shared types; trimming, lines and numbers |
| `SpscRing.dfy` | the lock-free ring: index arithmetic, the two threads step by step, the ring as an object |
| `AgentTypes.dfy`, `AgentSpec.dfy` | the user agent's values and its member functions as functions from state to state |
| `AgentStory.dfy`, `AgentLinks.dfy`, `AgentTimers.dfy`, `AgentAnswers.dfy`, `AgentMedia.dfy`, `AgentRequests.dfy`, `AgentTransport.dfy`, `AgentQuiescence.dfy` | one invariant each: events, calls and their INVITE, copies of requests, copies of the 200, media and keys, requests of a call, registration and connection, what is left after shutdown |
| `AgentRuns.dfy`, `AgentOrigins.dfy`, `AgentRegistration.dfy`, `AgentTheorems.dfy`, `AgentDeadlines.dfy` | every input keeps them; where keys come from; when a registration stalls; what follows for every run; timers |
| `UserAgent.dfy` | the user agent as an object, each method proved to move its state as `AgentSpec` says and to stay within the runs |
| `StreamFramer.dfy`, `Message.dfy`, `Lengths.dfy`, `Base64.dfy`, `Sdp.dfy`, `Handshake.dfy` | framing, messages, where the two read different lengths, base64, session descriptions, and two agents agreeing on keys through text |
| `Rtp.dfy`, `OrderStatistics.dfy`, `JitterSpec.dfy`, `JitterTheorems.dfy`, `JitterBuffer.dfy`, `G711.dfy`, `MediaSession.dfy` | packets and sequence tracking, the jitter buffer, A-law coding, and a frame's way from sender to playout |
| `CommandQueue.dfy`, `Link.dfy` | the engine's command queue with its wake pipe, and its connection generations |

## How the source is read

- Time is an integer number of milliseconds in the agent and of microseconds in the media code.
- Random branches, tags and Call-IDs are names from a supply that never repeats. Call identifiers are never reused, as
  the engine's counter makes them (`src/core/engine.cpp:192`, `src/core/engine.cpp:329`).
- `std::function` handlers are a datatype: register final, INVITE final, or nothing to do.
- The transaction table is a map keyed by branch and method. Its order depends on random branches, so statements about
  passes over it hold for every order.
- The agent's messages are parsed views: what it reads of a response or request, with credentials, granted lifetime and
  session description as optional parts. The host's answers (media port, random key, whether media starts) are inputs.
  Credentials are a header line and so never empty (`src/core/user_agent.cpp:185`): having some means being authenticated.
- Each public member function is one kind of input, so statements about runs speak of every sequence of calls.
- Calls, traffic and media actions leave traces, which the statements about runs speak of.
- Acquire and release operations of the ring are sequentially consistent steps.
- Strings are sequences of bytes. Sizes and indices of the ring wrap at 2^64, the base64 accumulator at 2^32, RTP
  sequence numbers at 2^16 and timestamps at 2^32; other counters are unbounded. The jitter estimate is a real number.
- The source comment on `ReceiveStatistics` promises numbers that keep growing. A jump of more than 3000 restarts the
  counts but not the numbering, so numbers are recovered for packets within half the range of the highest so far; only
  the count of lost packets needs them within 3000.
- Where a promise turns out false of the code, a lemma gives an input and another says exactly when it holds: payload
  spans (`Rtp.PayloadInside`), lengths and bodies with folded lines (`Lengths.BodyKeptExactly`), a wanted registration without
  a next step (`AgentRegistration.StalledRunExactly`), an attempt left in the past (`AgentRegistration.AttemptLeftExactly`)
  and the tag an answer is matched by (`AgentOrigins.AnswerMatchedExactly`).

## Model

| member | source | states |
|---|---|---|
| RingProtocol.FifoUnderEveryInterleaving | src/media/spsc_ring.hpp:26-47 | Under every interleaving of one producer and one consumer, each at single load, cell copy or store, the values taken are the accepted values in order, minus contiguous discarded runs; occupancy stays within 0..mask and the masked difference of the wrapped indices is exactly the occupancy. |
| RingProtocol.NoCellIsShared | src/media/spsc_ring.hpp:31-42 | A cell being written is never one the consumer may read or is reading, in any reachable state. |
| RingProtocol.NextKeepsInv | src/media/spsc_ring.hpp:26-47 | Every atomic step of either thread keeps the ring's invariant. |
| IndexArithmetic.SubOfWrapped | src/media/spsc_ring.hpp:29-29 | The difference of two wrapped 64-bit indices is the difference of the unbounded counters they stand for. |
| IndexArithmetic.MaskOfWrapped | src/media/spsc_ring.hpp:31-31 | Masking a wrapped index picks the same cell as masking the unbounded one, because the capacity divides the word. |
| RingBuffer.SpscRing.constructor | src/media/spsc_ring.hpp:16-21 | The capacity is the least power of two above the minimum, 1 for a minimum of 0, and the ring is empty. |
| RingBuffer.SpscRing.Push | src/media/spsc_ring.hpp:26-34 | Appends as many values as there is room for and says how many. |
| RingBuffer.SpscRing.Pop | src/media/spsc_ring.hpp:37-44 | Takes the oldest values, as many as asked for or as there are; nothing else changes. |
| RingBuffer.SpscRing.Discard | src/media/spsc_ring.hpp:47-47 | Empties the ring. |
| AgentTheorems.EventsTellCalls | src/core/user_agent.cpp:272-301 | In every run the events of each call spell [Incoming] Progress* [Answered] Ended or a prefix of it, calls follow one another without overlap, no event names an unknown call, and calls created minus Ended events is 1 if there is a call and 0 otherwise. |
| AgentTheorems.DiallingIsLive | src/core/user_agent.cpp:303-335 | In every run an outgoing call is in Calling exactly while its latest INVITE transaction is live. |
| AgentTheorems.SuccessIsSettled | src/core/user_agent.cpp:367-430 | Every 2xx to a live INVITE is acknowledged in the step that consumes it and leaves either the call confirmed, its media started and Answered reported, or a BYE for that dialog with a higher CSeq and no such call, even if the call was given up before (section 13.2.2.4 of RFC 3261). |
| AgentTheorems.CopiesAreBounded | src/core/user_agent.cpp:141-156 | In every run, however late the ticks, an INVITE goes out at most 7 times, any other request at most 11 times, exactly once over a reliable transport, and the 200 to a call at most 11 times besides copies for a repeated INVITE. |
| AgentTheorems.MediaIsSafe | src/core/user_agent.cpp:75-114 | In every run opens minus closes is 1 exactly while the current call has media open, media starts only while open and for the call that opened it, Answered implies a successful start, and one 30-byte key per call is used by every start and every description of that call with SRTP, none without. The far end's key of each start, failed ones included, is the one that a description received holds first under the tag that this side's own answer names, or under the tag of offers in an answer to this side's INVITE; that INVITE, or the answer if media started, was sent; and each INVITE carries the tag of the call's last description before it. |
| AgentOrigins.StepNegotiates | src/core/user_agent.cpp:408-422 | For every reachable state and input, each start of media with SRTP uses the key that the offer or answer received holds under the tag in this side's answer or of its offers, for answered, taken-up and re-invited calls. |
| AgentOrigins.RunExplained | src/core/user_agent.cpp:480-577 | In every run each start was caused by an answer received on the branch of an INVITE sent for that call, or by an offer received in an INVITE, which this side answered if media started. |
| AgentOrigins.AnswerMatchedExactly | src/core/user_agent.cpp:411-417 | Every usable answer to an INVITE that carried a tag is matched by that tag if and only if it is the constant tag of offers; the same over the answers that the parser returns for some text. |
| AgentOrigins.TagCanChange | src/core/user_agent.cpp:488-504 | A run in which an INVITE carries another tag, with descriptions that the parser returns for some text: following the far end's own INVITE while dialling replaces the description, the INVITE sent again with credentials carries it, and its answer is still matched by the constant tag. |
| AgentRegistration.StalledRunExactly | src/core/user_agent.cpp:190-268 | In every run a wanted registration is neither in flight nor scheduled exactly if the REGISTER in flight ended as an unregister or with a final failure other than 408 and 5xx while nothing was scheduled, and no start, stop, shutdown, connection or late outcome came after that. |
| AgentRegistration.StallsExactly | src/core/user_agent.cpp:190-268 | For every reachable state and input, told from the state before it, exactly when a wanted registration is left without a REGISTER in flight or an attempt scheduled. |
| AgentRegistration.RestartStalls | src/core/user_agent.cpp:236-236 | Start, 200, stop, start and the 200 to the unregister leave a wanted registration neither in flight nor scheduled. |
| AgentRegistration.RefusalStalls | src/core/user_agent.cpp:259-263 | So do start and 403. |
| AgentRegistration.AttemptLeftExactly | src/core/user_agent.cpp:781-785 | A tick leaves a wanted attempt at or before its own time exactly if the attempt was due, a REGISTER was in flight and no REGISTER ran out in the tick. |
| AgentRegistration.AttemptIsLeft | src/core/user_agent.cpp:781-785 | A run in which it does: start, stop, start, 200, a challenge to the unregister, and a tick when the refresh is due. |
| AgentTheorems.RequestsAreFew | src/core/user_agent.cpp:303-345 | In every run a call creates at most two INVITEs, one CANCEL and one BYE; a CANCEL follows a hangup and a provisional response to the INVITE whose branch and CSeq it shares; INVITE and BYE CSeq numbers strictly rise, the late BYE included. |
| AgentTheorems.ShutdownRunsDry | src/core/user_agent.cpp:629-656 | After shutdown there is never again a call or a registration, at most as many requests are created as the ranks of the live transactions add up to, and that many sweeps leave the agent idle. |
| AgentQuiescence.FinishPays | src/core/user_agent.cpp:227-242 | After shutdown, a final response, a timeout or a loss of a transaction strictly lowers the sum of ranks, counting what its handler sends. |
| AgentQuiescence.StepPays | src/core/user_agent.cpp:629-799 | After shutdown no other input raises the sum of ranks or creates a request that the drop does not pay for. |
| AgentQuiescence.SweepDrops | src/core/user_agent.cpp:750-769 | A tick at which everything is due, or a lost connection, strictly lowers the sum of ranks while anything is live. |
| AgentTransport.DownClears | src/core/user_agent.cpp:635-650 | Losing the connection leaves no transaction, no registration in flight or in place and no call in Calling; ringing, answering and confirmed calls are untouched. |
| AgentTransport.UpAfterDown | src/core/user_agent.cpp:652-656 | The next connection sends exactly one REGISTER if one is wanted and the agent is not shutting down, and nothing otherwise. |
| AgentTransport.DownIsFailAll | src/core/user_agent.cpp:635-641 | Running the handlers on a table already moved away is the same as failing the transactions one after the other. |
| AgentDeadlines.NothingDueAfterTick | src/core/user_agent.cpp:750-779 | After a tick every deadline of a transaction or of an unacknowledged 200 lies strictly in the future, in every reachable state. |
| AgentDeadlines.EarlyTickIsIdle | src/core/user_agent.cpp:788-803 | A tick before every deadline changes nothing, so waking at the next deadline loses nothing. |
| AgentRuns.StepInv | src/core/user_agent.cpp:190-786 | Every command, message, tick and connection change keeps the invariant behind the statements above. |
| AgentRuns.ReachableInv | src/core/user_agent.cpp:190-786 | The invariant holds after every run from the initial state. |
| UserAgents.UserAgent.constructor | src/core/user_agent.hpp:256-264 | A new agent is in the initial state: no call, no transaction, not registered; it is valid, and every public method keeps it a state that some run leads to. |
| UserAgents.UserAgent.TakeEvents | src/core/user_agent.cpp:116-120 | Hands over the events queued so far, oldest first, and empties the queue. |
| UserAgents.UserAgent.SendRequest | src/core/user_agent.cpp:141-156 | Sends the request and opens its transaction with T1, the 64*T1 deadline and its handler. |
| UserAgents.UserAgent.SendRegister | src/core/user_agent.cpp:206-225 | Sends a REGISTER under the next CSeq and marks the registration in flight. |
| UserAgents.UserAgent.StartRegistration | src/core/user_agent.cpp:190-195 | Wants a registration and sends it unless one is in flight or the agent is shutting down. |
| UserAgents.UserAgent.StopRegistration | src/core/user_agent.cpp:197-204 | Gives the registration up and unregisters if it was in place or in flight. |
| UserAgents.UserAgent.OnRegisterFinal | src/core/user_agent.cpp:227-268 | Authenticates once, keeps to a later stop, otherwise remembers, schedules and reports the outcome. |
| UserAgents.UserAgent.PlaceCall | src/core/user_agent.cpp:272-301 | Refuses bad targets and second calls; otherwise opens media and sends the INVITE, or ends the call at once. |
| UserAgents.UserAgent.SendInvite | src/core/user_agent.cpp:303-335 | Sends the INVITE under the next CSeq on a new branch and makes it the call's current one. |
| UserAgents.UserAgent.OnInviteProvisional | src/core/user_agent.cpp:337-353 | Remembers that CANCEL is allowed, sends one that is due, or reports a new progress status. |
| UserAgents.UserAgent.OnInviteSuccess | src/core/user_agent.cpp:372-430 | Acknowledges a 2xx, sends a late one away with BYE, otherwise takes the call up. |
| UserAgents.UserAgent.Establish | src/core/user_agent.cpp:403-429 | Ends the call with BYE if it was given up, its answer is unusable or media fails; otherwise reports it answered. |
| UserAgents.UserAgent.OnInviteFailure | src/core/user_agent.cpp:432-450 | Authenticates once or ends the call with the reason that applies. |
| UserAgents.UserAgent.OnInviteFinal | src/core/user_agent.cpp:367-451 | Dispatches a final response or a timeout of an INVITE, acknowledging failures on its own branch. |
| UserAgents.UserAgent.SendCancel | src/core/user_agent.cpp:453-464 | Sends CANCEL on the INVITE's branch with its CSeq. |
| UserAgents.UserAgent.SendBye | src/core/user_agent.cpp:466-476 | Sends BYE in the dialog under the next CSeq. |
| UserAgents.UserAgent.ReInvite | src/core/user_agent.cpp:488-504 | Follows a usable re-INVITE with this side's key unchanged, refuses any other with 488. |
| UserAgents.UserAgent.OnInviteRequest | src/core/user_agent.cpp:480-550 | Answers repeats, re-INVITEs, busy and unacceptable offers, or starts ringing. |
| UserAgents.UserAgent.Answer | src/core/user_agent.cpp:552-577 | Starts media before the 200 goes out, or refuses with 500 and ends the call. |
| UserAgents.UserAgent.Reject | src/core/user_agent.cpp:579-586 | Refuses a ringing call with the given status and ends it. |
| UserAgents.UserAgent.Hangup | src/core/user_agent.cpp:588-613 | Cancels, declines or hangs up according to the state of the call. |
| UserAgents.UserAgent.EndCall | src/core/user_agent.cpp:615-627 | Closes media if open, forgets the call and reports it ended, once. |
| UserAgents.UserAgent.BeginShutdown | src/core/user_agent.cpp:629-633 | Hangs up, unregisters and refuses anything new. |
| UserAgents.UserAgent.OnTransportDown | src/core/user_agent.cpp:635-650 | Fails every transaction, in whatever order the table has, and reports a lost registration. |
| UserAgents.UserAgent.OnTransportUp | src/core/user_agent.cpp:652-656 | Registers again if wanted, not in flight and not shutting down. |
| UserAgents.UserAgent.OnResponse | src/core/user_agent.cpp:671-699 | Matches a response to its transaction by branch and method; a stray 2xx gets its ACK again. |
| UserAgents.UserAgent.OnRequest | src/core/user_agent.cpp:701-748 | Handles ACK, malformed requests, INVITE, OPTIONS, BYE, CANCEL and anything else. |
| UserAgents.UserAgent.TimeTransactions | src/core/user_agent.cpp:750-761 | One pass, in any table order, sends again what is due and lists exactly the transactions that have run out. |
| UserAgents.UserAgent.OnTimer | src/core/user_agent.cpp:750-786 | Retransmits, expires, times the unacknowledged 200 and the next registration, in this order, after which no transaction is due. |
| UserAgents.UserAgent.NextDeadline | src/core/user_agent.cpp:788-803 | Returns the earliest of all deadlines, and nothing exactly when there is none. |
| UserAgents.TellsCalls | src/core/user_agent.cpp:272-301 | The events of a valid agent spell each call's story, as in every run. |
| UserAgents.SendsFewCopies | src/core/user_agent.cpp:141-156 | The traffic of a valid agent keeps the bounds on copies, requests, CANCELs and CSeq numbers. |
| UserAgents.KeepsMediaSafe | src/core/user_agent.cpp:75-114 | The media of a valid agent is held by its call, keyed as described, and each start has this side's part sent. |
| Framing.ChunkingIndependence | src/sip/stream_framer.cpp:26-56 | Any two ways of splitting a byte stream into pushes, drained after each, give the same messages, failure and rest as framing the whole stream at once. |
| Framing.FramesAppend | src/sip/stream_framer.cpp:31-56 | Framing may stop anywhere, keep-alives cut anywhere included, and go on from what is left; a failure is final. |
| Framing.FramesMeaning | src/sip/stream_framer.cpp:31-56 | Every message cut is whole (its head announces exactly what follows, within 65536 bytes), and messages, line breaks in front of them and the rest make up the stream. |
| Framing.FramesOfMessages | src/sip/stream_framer.cpp:31-56 | Whole messages with any line breaks between them come out one by one, and nothing else does. |
| Framing.FindContentLength | src/sip/stream_framer.cpp:9-22 | The first Content-Length or l line after the start line decides, and counts only if it is a number. |
| Lengths.SameLengthExactly | src/sip/message.cpp:84-102 | For every head whose header lines the parser accepts, framer and parser read the same body length exactly if no continuation line names a length before the length header, or names the header's own number, or no number where there is no header, and none adds text that changes the header's number. |
| Lengths.NoFoldingAgrees | src/sip/message.cpp:87-92 | In particular they agree on every head without continuation lines. |
| Lengths.FoldedDiffers | src/sip/message.cpp:87-92 | On a head whose only length is on a continuation line the framer takes that length and the parser sees none. |
| Lengths.FoldedFive | src/sip/stream_framer.cpp:18-19 | For instance a request with l: 5 folded into the header A: b: the framer reads 5, the parser no length. |
| Lengths.BodyKeptExactly | src/sip/message.cpp:84-104 | A message cut out by the framer whose start line and headers parse has exactly the bytes behind its head as its body if and only if no header names a length or its number is the framer's, told also from the lines. |
| Lengths.ParsedMessage | src/sip/message.cpp:98-104 | What the parser makes of such a message in every case: the whole rest, a prefix of it, or a refusal. |
| Lengths.FoldedRefused | src/sip/message.cpp:98-101 | A message that the framer cuts out and the parser refuses: l: 0 with a continuation line behind it. |
| Lengths.ParserFinds | src/sip/message.cpp:84-96 | What the parser finds under content-length: the first header line naming a length with all continuation lines behind it. |
| Lengths.FramerFinds | src/sip/stream_framer.cpp:9-22 | What the framer takes: the first line naming a length, continuation or not, on its own. |
| Framing.StreamFramer.Push | src/sip/stream_framer.cpp:26-29 | Appends bytes unless framing has failed. |
| Framing.StreamFramer.Next | src/sip/stream_framer.cpp:31-56 | Takes out the next whole message, waits, or fails for good, as the specification of one cut says. |
| Framing.StreamFramer.Reset | src/sip/stream_framer.cpp:58-61 | Forgets everything, a failure included. |
| Framing.StreamFramer.Feed | src/core/engine.cpp:450-455 | Draining after a push gives exactly the messages complete by then. |
| Framing.StreamFramer.FeedAll | src/core/engine.cpp:438-456 | Pushing chunk by chunk gives the messages and failure of the whole stream. |
| Messages.StreamOfBuilt | src/sip/message.cpp:172-190 | Built messages joined by any keep-alive line breaks are framed as built, and each parses back to its start line, its headers in order under full lower-case names, and its exact body. |
| Messages.ParseOfBuilt | src/sip/message.cpp:53-105 | Parsing undoes building for every well-formed draft. |
| Messages.BuiltIsMessage | src/sip/message.cpp:183-190 | What is built within the size limit is a whole message for the framer. |
| Messages.RequestLineParses | src/sip/message.cpp:76-82 | A request line built from a token and a URI is read back. |
| Messages.StatusLineParses | src/sip/message.cpp:68-75 | A status line built from a status of 100 to 699 and a phrase is read back. |
| Messages.ParseMessage | src/sip/message.cpp:53-105 | The line loops compute the specified parse, folded lines and refusals included. |
| Messages.FindHeader | src/sip/message.cpp:38-43 | The first value under a name. |
| Messages.MessageBuilder.Build | src/sip/message.cpp:183-190 | Start line, headers in order, type, length, empty line, body. |
| Messages.MessageBuilder.SetBody | src/sip/message.cpp:177-181 | Sets the body and its type. |
| Messages.MessageBuilder.Add | src/sip/message.cpp:172-175 | Appends a header. |
| Text.TrimmedMeaning | src/sip/text.hpp:12-18 | Trimming removes blanks in front and blanks and carriage returns behind, nothing else, and leaves nothing to trim. |
| Text.Trim | src/sip/text.hpp:12-18 | The two loops compute the trimmed text. |
| Text.Lowercase | src/sip/text.hpp:20-24 | The loop lowers exactly A to Z. |
| Text.LinesOfJoin | src/sip/text.hpp:36-48 | Splitting undoes joining with CRLF. |
| Text.SplitLines | src/sip/text.hpp:37-48 | The loop splits at LF and drops one CR before it. |
| Text.IntegerOfNumeral | src/sip/text.hpp:50-57 | A printed number is read back exactly when it is within the limit. |
| Base64.DecodedExactly | src/sip/base64.cpp:42-67 | A text decodes to x exactly when it is the encoding of x, or that text with all its padding removed. |
| Base64.Encode | src/sip/base64.cpp:19-40 | The loop over triples and the padded rest compute the encoding. |
| Base64.Decode | src/sip/base64.cpp:42-67 | The loop with its wrapping 32-bit accumulator computes the specified decoding, refusals included. |
| Base64.AccumulatorStep | src/sip/base64.cpp:57-62 | One step of the wrapping accumulator yields the byte completed and keeps exactly the bits left over. |
| Sdp.ParseOfBuilt | src/sip/sdp.cpp:113-136 | Parsing a built description returns the same address, port, payload types, profile, crypto tag and 30-byte key, for all well-formed arguments. |
| Sdp.CryptoReadBack | src/sip/sdp.cpp:23-44 | A built crypto line parses to its tag and key. |
| Sdp.ParseOfOffer | src/sip/sdp.cpp:93-98 | Every crypto line of a description is read, in order, whatever their number. |
| Sdp.KeyWithLifetime | src/sip/sdp.cpp:35-43 | Behind a key a lifetime is accepted; an empty or second part, or a key identifier, makes the line unusable. |
| Sdp.ParseAudio | src/sip/sdp.cpp:52-111 | The line loop over its flags computes the specified parse, early stop and failures included. |
| Sdp.ReadPayloads | src/sip/sdp.cpp:81-85 | The loop collects the payload types that are numbers. |
| Handshake.KeysCross | src/core/user_agent.cpp:75-114 | Two agents that agree on using SRTP accept each other's descriptions as text; each sends where the other listens, and each encrypts with the key the other decrypts with. |
| Handshake.AnswerKeyIsTheOfferedTag | src/core/user_agent.cpp:408-422 | Taking up a 2xx with any answer and any host: whatever media is started, successfully or not, has this side's key and the key the answer holds under the tag this side offers (section 5.1.3 of RFC 4568). |
| Handshake.AnswerNamesItsKey | src/core/user_agent.cpp:556-570 | Answering an acceptable offer with any host: whatever media is started, successfully or not, has the new key and the offered key that this side's answer names by tag. |
| Handshake.ReInviteNamesItsKey | src/core/user_agent.cpp:488-504 | Following a re-INVITE with any offer and any host: whatever media is started has this side's unchanged key and the offered key that its answer names by tag. |
| Rtp.ParseOfWire | src/media/rtp.cpp:19-62 | Parsing gives back header and payload exactly for headers with a 7-bit payload type that are not mistaken for RTCP. |
| Rtp.WriteRtp | src/media/rtp.cpp:19-32 | Fills the buffer with header and payload, or returns 0 and leaves it alone; bytes behind the packet stay. |
| Rtp.ParseOfFullWire | src/media/rtp.cpp:41-60 | Whatever contributing sources, extension and padding surround it, parsing finds the header and exactly the payload (section 5.1 of RFC 3550). |
| Rtp.PayloadInside | src/media/rtp.cpp:34-62 | A parsed payload is a stretch of the datagram behind the fixed header, exactly unless the padding bit is set, the payload start lies past the end and the last byte exceeds the size; then the span lies outside the datagram. |
| Rtp.SpanExactly | src/media/rtp.cpp:46-52 | With sizes wrapping at 2^64 the span is the one meant, exactly outside that case. |
| Rtp.OverrunHappens | src/media/rtp.cpp:46-52 | That case happens: a 12-byte datagram ending in FF. |
| Rtp.NumbersRecovered | src/media/rtp.cpp:64-95 | Every true number is recovered up to one constant multiple of 65536, for any loss, repetition or reordering, exactly if each packet is within half the range of the highest the tracker has at that time (appendix A.1 of RFC 3550). |
| Rtp.LossIsExact | src/media/rtp.cpp:97-102 | For distinct packets none before the first and each within 3000 of the highest so far, lost() is exactly the number of numbers missing up to the highest (appendix A.3 of RFC 3550). |
| Rtp.UnwrapRecovers | src/media/rtp.cpp:72-76 | The number placed nearest to the highest is the true one, exactly within half the range; at a distance of 32768 it depends on the half of the range the highest is in. |
| Rtp.ReceiveStatistics.OnPacket | src/media/rtp.cpp:64-95 | Returns the extended number and updates base, highest and received, restarting after a jump, and the jitter estimate over the reals. |
| Rtp.TransitDifference | src/media/rtp.cpp:88-91 | The wrapped 32-bit difference of two transits is the true one whenever that fits in 32 bits, however often the clocks wrapped. |
| Rtp.JitterWithin | src/media/rtp.cpp:88-93 | Over any packets, restarts included, the estimate stays between 0 and the largest difference between consecutive transits (section 6.4.1 of RFC 3550). |
| MediaSessions.FramesKeepTheirNumbers | src/media/media_session.cpp:39-68 | From the sender's counter to the receiver's jitter buffer: every frame is put, payload intact, under its true number up to one multiple of 65536 that is the same for all, whatever is lost, repeated or reordered, as long as each packet is within half the range of the highest so far. |
| G711.Encode | src/media/g711.cpp:11-26 | The segment search and the masks give the code of a sample, one of 8 segments of 16 steps each. |
| G711.EncodeOfDecoded | src/media/g711.cpp:11-38 | Every one of the 256 codes decodes to a 16-bit sample that is encoded back to it, as tests/g711_test.cpp asks. |
| G711.ErrorIsSmall | src/media/g711.cpp:11-38 | Encoding and decoding a sample is off by at most half the step it lies in, which is 16 or no more than a thirtieth of the sample: the bound of tests/g711_test.cpp, for all samples. |
| G711.OrderIsKept | src/media/g711.cpp:11-38 | Encoding and decoding keeps the order of samples, for every pair. |
| G711.EncodeAll | src/media/g711.cpp:40-42 | Encodes every sample of a frame, in order. |
| MediaSessions.NthHeaderIs | src/media/media_session.cpp:46-48 | Packets are numbered and stamped one frame apart modulo the field widths, and only the first is marked. |
| MediaSessions.MediaSession.Start | src/media/media_session.cpp:19-35 | A new call starts with fresh numbering, statistics and jitter buffer, and nothing captured before it. |
| MediaSessions.MediaSession.NextPacket | src/media/media_session.cpp:39-51 | Takes up to a frame from the capture ring, fills up with silence, encodes it with A-law, writes one packet and moves the numbering on; without room only the frame is gone. |
| MediaSessions.MediaSession.OnPacket | src/media/media_session.cpp:53-68 | Hands PCMA packets on under their extended number, starting over for a new source; says whether the payload span lies inside the datagram, for every payload type, since taking one outside has no defined outcome. |
| JitterTheorems.NothingLost | src/media/jitter_buffer.cpp:45-107 | In every run stored frames are played, dropped, cleared by resets or still queued; within an epoch cursor advance plus rewinds is played plus missing plus dropped plus skipped; played numbers strictly rise; ten times the dropped frames never exceeds the pops. |
| JitterTheorems.WindowHoldsRecent | src/media/jitter_buffer.cpp:125-129 | The circular window is, as a multiset, the last 250 transits since the last reset, or all of them. |
| JitterTheorems.TargetInRange | src/media/jitter_buffer.cpp:109-113 | The target delay is always between 10 and 300 ms. |
| JitterTheorems.FewSamplesExceed | src/media/jitter_buffer.cpp:131-141 | Unless capped, at most ceil(n/100)-1 samples exceed the desired offset less the margin. |
| JitterTheorems.GrowsExactly | src/media/jitter_buffer.cpp:69-75 | Between puts, an offset below target takes exactly ceil(gap/20 ms) Expanded pops and is then within a frame above target. |
| JitterTheorems.ShrinksExactly | src/media/jitter_buffer.cpp:77-91 | Between puts, with enough consecutive frames queued, an offset above the band takes exactly ceil(gap/20 ms) discards, the first when ten pops have passed since the last and then one every ten pops; each pop plays a frame, the offset stays above the band until the last discard and is then in band. |
| JitterTheorems.AboveConsumes | src/media/jitter_buffer.cpp:77-106 | At or above target a pop plays or misses a slot; shrinking leaves the offset more than 10 ms above target, and in band nothing changes. |
| JitterTheorems.GrowingNeverShrinks | src/media/jitter_buffer.cpp:69-107 | While growing or in band, no later pop shrinks until a put or a reset. |
| JitterTheorems.ShrinkingNeverGrows | src/media/jitter_buffer.cpp:69-107 | At or above target, in particular after shrinking, no later pop grows until a put or a reset. |
| JitterTheorems.PutInv | src/media/jitter_buffer.cpp:45-59 | Putting, rewinds and jumps included, keeps the invariant. |
| JitterTheorems.PopInv | src/media/jitter_buffer.cpp:61-107 | Popping, restarts included, keeps the invariant. |
| OrderStatistics.KthByCounts | src/media/jitter_buffer.cpp:136-138 | The percentile is the sample with more than k samples up to it and at most k below it, and no other value is. |
| OrderStatistics.NthElement | src/media/jitter_buffer.cpp:137-138 | Finds that sample. |
| OrderStatistics.MinElement | src/media/jitter_buffer.cpp:134-134 | Finds the fastest transit. |
| JitterBuffers.JitterBuffer.constructor | src/media/jitter_buffer.cpp:40-43 | An empty buffer with the initial delay clamped to 10..300 ms. |
| JitterBuffers.JitterBuffer.Put | src/media/jitter_buffer.cpp:45-59 | Stores, rewinds, refuses or recognises a frame as specified, and keeps the invariant. |
| JitterBuffers.JitterBuffer.Pop | src/media/jitter_buffer.cpp:61-107 | Buffers, expands, shrinks, plays or misses as specified, and keeps the invariant. |
| JitterBuffers.JitterBuffer.ShrinkDelay | src/media/jitter_buffer.cpp:77-90 | The loop passes over slots exactly as far as specified. |
| JitterBuffers.JitterBuffer.RecordTransit | src/media/jitter_buffer.cpp:125-129 | Writes the transit over the oldest one. |
| JitterBuffers.JitterBuffer.DesiredOffset | src/media/jitter_buffer.cpp:131-141 | Fastest transit plus clamped spread. |
| JitterBuffers.JitterBuffer.TargetDelayUs | src/media/jitter_buffer.cpp:109-113 | The delay aimed for, within 10..300 ms. |
| JitterBuffers.JitterBuffer.Reset | src/media/jitter_buffer.cpp:115-123 | Clears frames, cursor and window, and keeps the counters. |
| CommandQueue.HandedOverOnce | src/core/engine.cpp:162-175 | Under every interleaving accepted commands are settled in queue order and never twice, whoever has a result has the one its command was settled with, refusals of accepted commands happen only after closing and never to a stop, and in poll with a command queued the pipe is non-empty or a caller is about to write it. |
| CommandQueue.NobodyWaitsForever | src/core/engine.cpp:582-588 | When the network thread is over every accepted command has been settled, so every waiting caller gets its result. |
| CommandQueue.NothingAfterClosing | src/core/engine.cpp:582-588 | Once closed, nothing more is accepted. |
| CommandQueue.StepInv | src/core/engine.cpp:486-496 | Every step of a caller or of the network thread keeps the protocol's invariant. |
| Link.OnlyCurrentBytes | src/core/engine.cpp:432-462 | In every run the bytes in the framer are the first ones the current connection delivered, in order, and the agent has been given exactly the messages they make up; the same held of every earlier connection, one that failed in the middle of a chunk included. |
| Link.StepInv | src/core/engine.cpp:399-462 | Reports, drains, new connections and drops keep this, however late a replaced connection still reports. |
| Link.Signalling.ConnectLink | src/core/engine.cpp:399-414 | A new generation with an empty framer. |
| Link.Signalling.DropLink | src/core/engine.cpp:422-430 | A new generation with an empty framer, down. |
| Link.Signalling.GiveUpLink | src/core/engine.cpp:532-532 | Giving up a connection that is up is a drop, and keeps the invariant. |
| Link.Signalling.PostEvent | src/core/engine.cpp:370-376 | Queues a report at the end of the inbox. |
| Link.Signalling.DrainLink | src/core/engine.cpp:432-462 | Handles everything reported so far in order, ignoring other generations. |

## Left out

- Sockets, name resolution, TLS back ends, libsrtp, PEM and OS randomness: input and output, or foreign code.
- Swift and Apple audio, the proof-of-concept tool, the C interface: user interface and thin wrappers.
- MD5 and digest text: string assembly; `authorization_for` is an optional result.
- Rounding of the floating-point jitter estimate, and concealment by halving: numeric only.
- The engine's poll timing, statistics publication, frame pacing, SRTP stream reuse and reconnect back-off: plumbing.
- Display names, correlation identifiers, user-agent and contact text of the agent's messages: copied through unread.
- 32-bit wrap of CSeq numbers: the agent's CSeq counters are unbounded.
- Memory reordering weaker than sequential consistency in the ring, and its `size()`, which may be stale.
- Command queue: modelled as a state machine over its atomic steps under the lock, not as an object; what a command does is not part of it.
- `parse_cseq`, `uri_of`, `display_name_of`, `param_of` and `header_all`: small string helpers whose results the agent's inputs already carry.
- The selection that `std::nth_element` makes in place on the scratch vector: computed by counting instead; only its result is used.
- A second acknowledgement of a repeated failure, or of a 2xx after the call is gone: the source sends none.
- Playout order across resets of the jitter buffer: `reset` clears the cursor, so none is promised.
- AgentDeadlines.NothingDueAfterTick: covers transactions and the unacknowledged 200; the next registration attempt has its own statement, `AgentRegistration.AttemptLeftExactly`.
- Rtp.LossIsExact: for packets before the first or repeated packets the count is only bounded below by zero, as in the source.
- MediaSessions.MediaSession.OnPacket: claims nothing of the source once a payload span lies outside its datagram, because forming one already breaks the precondition of `subspan`.
- `play_frame` and `stats` of the media session: concealment and copying of counters.
