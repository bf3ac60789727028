# Verified model of the Veilroom room protocol

A host runs a room; participants are admitted through it, and everything between members passes
through it. This project models the parts of that protocol in which many steps must fit together
and proves, for every input and every run, that they do.

* **The room and its members.** `actor.dfy` is the room actor as a deterministic step function,
  handler by handler; `session.dfy` is the mirror that each member keeps. A run (`runs.dfy`) is any
  sequence of timed events from any valid start; the view of a member is the fold of its session
  over the messages the room sent on its connection, in order. `room_actor.dfy`, `chat_session.dfy`
  and the classes in `member.dfy`, `connections.dfy`, `queue.dfy`, `replay.dfy` and `ratelimit.dfy`
  are the objects that change in place. Every method of theirs is proved to do to the object what
  the function of its handler does to the value; the table below lists those with loops and the
  entry points.
  The proof goes from invariants (`actor_invariants.dfy`) to a classification of what a step puts
  on the channels (`actor_moves.dfy`), to what one view makes of it (`views.dfy`, `channels.dfy`,
  `agreement.dfy`, `restarts.dfy`), to theorems about runs: `member_views.dfy`,
  `key_separation.dfy`, `relay_once.dfy`, `transitions.dfy`, `activation.dfy`, `gate.dfy`,
  `admissions.dfy`, `flood.dfy`, `listed.dfy` and `tables.dfy`, `sequences.dfy`, with
  counterexamples in `witness.dfy`. What each event does is also told by the event alone, without
  naming a handler, for every room the invariant allows: `departures.dfy`, `commands.dfy`,
  `answers.dfy`, `speech.dfy`, `allowance.dfy`, and over whole runs in `afterwards.dfy`;
  `authentic.dfy` does the same for a member's session under any messages at all.
* **The wire formats.** `frame.dfy` (incremental framing), `transcript.dfy` (canonical signature
  transcripts), `cbor.dfy` and `membership.dfy` (strict CBOR and the nested snapshot schema),
  `base32.dfy` and `uri.dfy` (invitations). Exactly which inputs are accepted, and as what:
  `headers.dfy`, `layouts.dfy`, `stretching.dfy`, `accepted.dfy`, `utf8.dfy`, `uri_grammar.dfy`.
* **The admission handshake.** `validation.dfy` (nickname normalisation), `handshake.dfy` (both
  state machines and their composition), `traces.dfy` (exactly how far each gets over any messages), `admission.dfy` (the same as objects),
  `nicknames.dfy` (which names are accepted).

What is assumed: signatures, authenticated encryption, key wrapping and password proofs are ideal
(a term names who made it and what it covers; `transcript.dfy` proves that the bytes determine
those inputs); the generator returns a new epoch key each time; counters do not overflow; channels
are first in, first out; the clock is an input, monotone only where a statement says so. A room
starts after `start` succeeded, with a limit from 1 to 16 and a host nickname in normal form. A
join application reaches the room with the nickname that `JoinRequest::new` validated. Hashing,
UTF-8 and Unicode composition are functions; of composition it is assumed that it is idempotent and
that a space is a barrier to it. Nothing is assumed about connection ids being new: a view begins
at the admission that opened it.

Where the repository's promises and its code differ, the model follows the code. A removal during a
transition restarts it under the next epoch, and the announcements queued for the abandoned one are
flushed later and refused. Members refuse something exactly in runs with a restart
(`MemberViews.RefusalsExactly`), but their lists differ from the host's table only if the refused
announcement was needed: `Tables.TablesExactly` is the exact condition, in terms of which epochs were
ever acknowledged by everybody, and `Witness.OvertakenTablesDiffer` a run in which they differ. The
combined cap on requests of `README.md` line 187 is not checked on the join path
(`Admissions.CombinedCapExactly`, and `Witness.CombinedCapFails` is a run). Also,
`docs/protocol-v1.md` line 693 lets a sender's sequence start at 1 in every epoch; the code carries
it on (`Sequences.SequenceCarriesOver`); and the 32-bit length field bounds what
`Frames.RoundTripExactly` can promise although no limit is checked against it.

## Model

| member | source | states |
|---|---|---|
| `MemberViews.TablesAgree` | src/room/actor.rs:1345-1461 | In every run in which no removal restarted a pending transition, whenever the room is Open or Locked every member that read its channel in order lists exactly the host's members (id, nickname, host flag, Ed25519 key) and has refused no control message |
| `Tables.TablesExactly` | src/room/actor.rs:916-950 | In every run, restarts included, once the room is Open or Locked: all members list exactly the host's members (id, nickname, host flag, Ed25519 key) if and only if no current member's admission was restarted before everybody acknowledged it, and no departure was restarted of somebody whom a current member had come to list, the host by the admission or a later newcomer by its snapshot |
| `Witness.OvertakenTablesDiffer` | src/room/actor.rs:735-777 | A fourteen-event run that ends Open with lists that differ: a settled guest is lost before anybody acknowledged the epoch of a second one |
| `Tables.TablesHold` | src/room/actor.rs:1345-1461 | In every run the list of every member, now and after the flush of what is deferred, is what the history of admissions, departures and activated epochs says |
| `MemberViews.RefusalsExactly` | src/room/actor.rs:916-950 | In an Open or Locked room nobody has refused a control message if and only if no removal ever happened while an epoch was pending |
| `MemberViews.ChannelSafety` | src/chat/session.rs:100-139 | Restarts included, every current member is in the epoch of the room under that epoch's key and knows its join policy; of all it was sent it refused no epoch wrap, no policy event and no relayed envelope for its epoch or sequence: only announcements that a later epoch overtook or that repeat an identity, and envelopes of senders it does not know yet |
| `MemberViews.SequencesIncrease` | src/room/actor.rs:1345-1415 | The signed events on every channel, sent or still deferred, carry strictly increasing sequences, none above the room's |
| `MemberViews.OrderedIsIncreasing` | src/chat/session.rs:515-521 | An ordered channel carries larger sequences later, the last one on top |
| `MemberViews.RelayedIsRead` | src/room/actor.rs:1281-1292 | Whoever is sent a relayed envelope reads in it exactly what another member sealed under the current key, or does not know that member yet; in an Open or Locked room without restarts everybody reads it |
| `MemberViews.SealedIsRelayed` | src/room/actor.rs:1080-1174 | In any run, what a member seals with its own session under an unused sequence and within its rate limit is relayed to all others, transition or not, unless the member has not acknowledged the pending epoch |
| `MemberViews.OnlyRelaysRelay` | src/room/actor.rs:1281-1291 | A batch of actions passes on at most one envelope, never back to the connection it came from |
| `Witness.CombinedCapFails` | README.md:187 | A run that ends with more requests waiting than the combined cap allows: a guest asks for a timeout in a room with one place, then a stranger asks to join |
| `Sequences.SequenceCarriesOver` | src/chat/session.rs:413-442 | In every run, of two envelopes that a member seals at two moments, whatever epochs pass between them, each is sealed under the epoch of its moment and the second has the sequence after the first |
| `Witness.SecondEpochStartsAtTwo` | docs/protocol-v1.md:693 | A run in which the host's first envelope of epoch 2 has sequence 2 |
| `Sequences.RunCarries` | src/chat/session.rs:100-139 | Reading what arrives between two moments of a run leaves the count of sealed envelopes as it is, and otherwise gives the later view |
| `Admissions.CombinedCapExactly` | src/room/actor.rs:1209-1213 | Timeout requests respect the combined cap; a join request exceeds it exactly if it is let in while the two lists fill the cap |
| `Departures.DeparturesExactly` | src/room/actor.rs:672-789 | Any event but chat, in any room that is not closed: exactly the guests it names are gone, by leaving, being kicked by id or nickname, being lost or reported gone, or missing the deadline; everybody else is untouched, the next epoch is pending, every survivor will be told with the right kind of announcement, and the room closes exactly when the event says so |
| `Departures.KickDeparts` | src/room/actor.rs:713-733 | A kick removes exactly the guest its reference names; it refuses the host, nobody, and the empty nickname, each with its own error and no effect |
| `Afterwards.GoneForGood` | src/room/actor.rs:672-694 | In every run, whoever an event sends away is out of table and registry at once and is sent none of the later epoch keys, however the run goes on |
| `Afterwards.EveryStep` | src/room/actor.rs:356-452 | In every run, every step has the membership, policy, queue and timeout outcome that its event alone determines |
| `Commands.PolicyExactly` | src/room/actor.rs:818-866 | Any event: the policy is open exactly after ReqOn or if it was and no ReqOff came; ReqOn opens the room, ReqOff locks it, empties the queue and forgets all but members, and either is announced under a new sequence to every guest and not to the host |
| `Afterwards.LockedUntilOpened` | src/room/actor.rs:818-840 | In every run, after ReqOff nobody is queued and the room is not open until a later ReqOn |
| `Commands.NewInvitation` | src/room/actor.rs:791-816 | A new invitation ends every admission, tells and closes each, and leaves members, policy and epoch alone |
| `Commands.ColorChosen` | src/room/actor.rs:696-711 | A colour command repaints the member on its connection and nobody else |
| `Commands.ReportsAreTrue` | src/room/actor.rs:510-544 | Requests, List and Whois change nothing and report the queue, the table and the member of that nickname |
| `Commands.LastAcknowledgement` | src/room/actor.rs:974-989 | The last acknowledgement settles the room, sends all that was deferred in order and reminds the host of its timeout |
| `Commands.Unattended` | src/room/actor.rs:371-406 | What is refused while an epoch is pending and once the room is closed, without effect |
| `Commands.RoomStarts` | src/room/actor.rs:239-294 | The room after create and start, under the given limits, with the first epoch wrapped for the host |
| `Answers.QueueExactly` | src/room/actor.rs:473-650 | Any event: who waits afterwards is who waited and was not answered, withdrawn or lost, and whoever just applied while it may |
| `Answers.ApplicationAnswered` | src/room/actor.rs:473-508 | An application is queued exactly from a connection that proved the password, once, while the room is open and has a place; otherwise nothing changes and the error says which of these failed |
| `Answers.AnsweredExactly` | src/room/actor.rs:546-639 | Accepting lets the applicant in exactly if there is a place and its name, connection and keys are free, as a member with the next id whom everybody else will be told of and who will get a snapshot of the table with its colours, and turns it away otherwise; rejecting turns it away; a timeout request is reported with its seconds; an unknown id is an error |
| `Answers.TimeoutsExactly` | src/room/actor.rs:735-777 | Apart from chat, exactly the timeout requests that are answered or whose connection is lost end |
| `Answers.LostTimeoutsAreTold` | src/room/actor.rs:752-760 | The host is told of every timeout request that ends with its connection |
| `Answers.StrangerIsLost` | src/room/actor.rs:735-777 | A lost connection that is no member is forgotten, and its request withdrawn and reported |
| `Answers.ConnectionsKnown` | src/room/actor.rs:408-420 | A new connection has proved nothing; a proved password is remembered for a known one |
| `Speech.HeardExactly` | src/room/actor.rs:1080-1292 | An envelope that a member sealed under the current key, with a new sequence and within its limit, does what its payload says: text, a colour and the host setting are passed on to all others, the colour and the setting take effect, a timeout request reaches the host with its seconds, and anything else is refused |
| `Speech.UnheardChangesNothing` | src/room/actor.rs:1080-1175 | Any other envelope changes nothing but the limiter of its author |
| `Speech.FloodedIsWarned` | src/room/actor.rs:1109-1154 | A refused member is warned, and a guest is removed at the tenth refusal in a row; the host is not |
| `Speech.KindsExactly` | src/room/actor.rs:1086-1112 | Text, colours and requests for a timeout are limited, and nothing else |
| `Speech.ColorsExactly` | src/command.rs:74-117 | The seven colours have the indices 0 to 6 |
| `Speech.TimeoutPayloadExactly` | src/chat/session.rs:270-312 | A timeout payload is read exactly from a flag and eight big-endian bytes of 1 to 3600 seconds, or nine zeroes |
| `Allowance.FloodExactly` | src/room/actor.rs:1109-1154 | In every run a rate-limited action passes exactly if in every window that ends with it fewer than five actions, plus one for every second of the window, have passed |
| `Allowance.QuietIsHeard` | src/room/actor.rs:1109-1154 | Whoever had fewer than five actions pass in the last five seconds is not refused |
| `Allowance.BucketExactly` | src/chat/ratelimit.rs:34-64 | A bucket that starts full refuses a call exactly if some window ending with it has used up capacity and refill |
| `Allowance.KickedExactly` | src/room/actor.rs:1121-1153 | In every run a guest is kicked for flooding exactly at ten refusals without one that passed between |
| `Authentic.EnvelopeExactly` | src/chat/session.rs:244-312 | A session reads an envelope exactly if a listed member sealed that payload for its epoch under a new sequence and may send it; a colour repaints its author only |
| `Authentic.EventExactly` | src/chat/session.rs:315-410 | A signed event is accepted exactly if the host signed it, for this epoch, under a larger sequence, with a body that is possible here, and then it does what it says |
| `Authentic.PlausibleExactly` | src/chat/session.rs:538-591 | A snapshot is valid exactly if it has at most 16 members, all different, with valid names and colours, the host, and the reader |
| `Authentic.WrapExactly` | src/chat/session.rs:100-139 | A wrap is installed exactly if it is for this member and newer |
| `Authentic.ReadOnce` | src/chat/session.rs:444-492 | Under any messages whatever, what a session reads of one sender strictly increases in epoch and then in sequence |
| `Authentic.JustAdmitted` | src/chat/session.rs:69-139 | A session that was just admitted knows nobody and no epoch, and its first envelope has sequence 1 |
| `Authentic.ListStaysGood` | src/chat/session.rs:315-376 | Under any messages whatever, no two listed members share an id, a nickname or a key |
| `KeySeparation.WrappedForRosterExactly` | src/room/actor.rs:916-950 | The key of epoch e was sent to exactly the members epoch e was opened for, on the connection and under the X25519 key each was admitted with; the current roster is the member table |
| `KeySeparation.WrapsIncrease` | src/room/actor.rs:916-950 | The wraps sent to one member are of strictly increasing epochs, never two of one epoch, none above the room's |
| `KeySeparation.KeysFormInterval` | src/room/member.rs:150-194 | No member gets the key of an epoch before its own admission, and it gets the keys of consecutive epochs: once out, never in again |
| `KeySeparation.RosterIsFixed` | src/room/actor.rs:892-911 | The member set an epoch was opened with is never rewritten, however the run continues |
| `KeySeparation.KeysHold` | src/room/actor.rs:916-950 | Rosters, admissions and wraps of every run: sound, complete and contiguous |
| `RelayOnce.AtMostOnce` | src/chat/replay.rs:27-36 | No (sender, epoch, sequence) is passed on twice in a run; what is passed on of one sender in one epoch is strictly increasing |
| `RelayOnce.ForgettingIsHarmless` | src/chat/replay.rs:47-49 | On every query about the current epoch the pruned tracker answers as one that never forgets |
| `RelayOnce.RelaysHold` | src/chat/replay.rs:27-49 | The pruned tracker is the full one restricted to the current epoch, in every run |
| `Transitions.TransitionProgress` | src/room/actor.rs:365-406 | During a transition an event that counts ends it or strictly decreases (members, missing acknowledgements); any other event leaves it exactly where it was; joins are refused unchanged |
| `Transitions.TransitionEnds` | src/room/actor.rs:954-1034 | However many events arrive, after a number of counting ones bounded by the room limit the transition is over |
| `Transitions.RankDecreases` | src/room/actor.rs:999-1034 | Along any run inside a transition the counting events are at most the rank lost |
| `Activation.ActivationIsCoherent` | src/room/actor.rs:954-991 | In every run: a transition is pending exactly while some member has not acknowledged the current epoch; otherwise the active key is the current one, nothing is deferred and the state is what the policy says; chat is opened with the current key either way |
| `Activation.AcknowledgedActivates` | src/room/actor.rs:974-989 | From any reachable open state, once all members acknowledge, the room is Open or Locked with the same members and epoch |
| `Activation.CoherenceHolds` | src/room/actor.rs:969-973 | In every run, those who acknowledged the current epoch are the members nobody waits for |
| `Admissions.MembersWereAdmitted` | src/room/actor.rs:473-616 | Every member but the host left its trace: password proved on a registered connection, then queued, then accepted by the host while the room was open, with the nickname and keys it applied with |
| `Admissions.AnsweredAtMostOnce` | src/admission/queue.rs:117-131 | A request id that was accepted or rejected once is never answered again in the run, join or timeout request alike |
| `Admissions.SettledForGood` | src/room/actor.rs:642-650 | A request that left its list, answered or withdrawn, never comes back |
| `Admissions.AnswerCloses` | src/room/actor.rs:546-639 | Accepting or rejecting succeeds only on an open request and closes it |
| `Admissions.GateIsConsistent` | src/room/connections.rs:54-106 | In every run: table invariant, bijection of member roles and table entries and of pending roles and queued requests, one id namespace within the limits, limiters only of members; accepting a queued request never finds its connection taken |
| `Flooding.FloodBound` | src/room/actor.rs:1109-1154 | In any window of any run at most 5 + (seconds) rate-limited actions of one member pass |
| `Flooding.LimitedRelaysPass` | src/room/actor.rs:1109-1154 | Every chat or colour envelope passed on was paid for by its author |
| `Flooding.LimitedTimeoutsPass` | src/room/actor.rs:1109-1235 | Every timeout request that begins to wait for the host was sent on its author's connection and paid for by that author |
| `Flooding.BucketBound` | src/chat/ratelimit.rs:34-64 | A token bucket lets at most its capacity plus rate times the elapsed time pass, for any calls at nondecreasing times |
| `Flooding.AllowPays` | src/chat/ratelimit.rs:34-44 | A call costs one token if it is allowed and nothing otherwise |
| `Flooding.CreditGrows` | src/chat/ratelimit.rs:56-64 | Waiting adds at most rate times the time, and never more than the capacity |
| `Flooding.HandleKeepsLimits` | src/room/actor.rs:1111-1117 | An event charges the limiter of at most one member and leaves those of the remaining others alone |
| `ActorInvariants.StartedHolds` | src/room/actor.rs:239-294 | The room invariant holds after create and start |
| `ActorInvariants.HandleKeeps` | src/room/actor.rs:356-452 | Every event in every state keeps the room invariant |
| `ActorInvariants.AdmitKeeps` | src/room/actor.rs:562-615 | Admission keeps the invariant, whether the table takes the applicant or not |
| `ActorInvariants.RemoveMemberKeeps` | src/room/actor.rs:892-911 | Removal keeps the invariant; the host cannot be removed |
| `ActorInvariants.EvictKeeps` | src/room/actor.rs:1014-1028 | Evicting members removes exactly the given ids |
| `ActorInvariants.EpochTimeoutKeeps` | src/room/actor.rs:999-1034 | A passed deadline keeps the invariant |
| `ActorInvariants.EpochAckKeeps` | src/room/actor.rs:954-991 | An acknowledgement keeps the invariant |
| `ActorInvariants.ConnectionLostKeeps` | src/room/actor.rs:735-777 | A lost connection of any role keeps the invariant |
| `ActorInvariants.SetPolicyKeeps` | src/room/actor.rs:818-840 | Locking leaves nobody in the queue |
| `ActorInvariants.JoinRequestedKeeps` | src/room/actor.rs:473-508 | A join request enters queue and registry together |
| `ActorInvariants.ChatKeeps` | src/room/actor.rs:1080-1292 | Chat keeps the invariant, including the kick for flooding |
| `ActorInvariants.TimeoutsNotOfIsFilter` | src/room/actor.rs:752-753 | Exactly the timeout requests of other connections are retained |
| `ActorMoves.HandleMoves` | src/room/actor.rs:356-452 | What any event does to the channels is one of six moves, each fixing which messages go out and what stays: idle, relay, policy change, activation, admission, departure |
| `ActorMoves.ChatKeyIsCurrent` | src/room/actor.rs:1296-1310 | The key that opens chat is always the key of the current epoch |
| `ActorMoves.EvictMoves` | src/room/actor.rs:1014-1028 | Evicted members are gone and the survivors are untouched |
| `Channels.MoveKeeps` | src/room/actor.rs:356-452 | Every move keeps every member's view settled, in the epoch of the room and in sequence order |
| `Agreement.MoveAgrees` | src/room/actor.rs:1345-1461 | Every move but a restart keeps every member's view, completed by what is deferred for it, equal to the table |
| `Restarting.MoveMisses` | src/room/actor.rs:916-950 | A restart leaves the host an announcement it must refuse, and no later move takes that back |
| `Views.JoinedIsInstalled` | src/chat/session.rs:315-340 | A current, signed join announcement adds exactly the newcomer |
| `Views.GoneIsInstalled` | src/chat/session.rs:343-355 | A current, signed leave or kick announcement removes exactly the member |
| `Views.SnapshotIsInstalled` | src/chat/session.rs:358-376 | A current, signed snapshot of the table is accepted and installs exactly the table |
| `Views.TableSnapshotOk` | src/chat/session.rs:538-591 | The snapshot of any reachable table passes the member's validation |
| `Views.ReceiveWrapKeeps` | src/chat/session.rs:100-139 | A wrap of a newer epoch for this member is installed and changes nothing else |
| `Views.ReceiveRelayedKeeps` | src/chat/session.rs:444-492 | An envelope the room opened is opened by a member to the same plaintext, or refused only because its sender is unknown |
| `Views.ReceivePolicyKeeps` | src/chat/session.rs:401-406 | A current policy event is accepted and sets the policy |
| `Views.ReceiveEventKeeps` | src/chat/session.rs:494-523 | Membership announcements keep a view settled, whether they are accepted or refused |
| `Runs.RunHolds` | src/room/actor.rs:356-452 | The invariant of channels, agreement and restarts holds of every run |
| `Gate.HandleFramed` | src/room/actor.rs:356-452 | One event adds to the gate only what its own step adds: a verified connection, a queued request, a timeout request of its sender, a member that was accepted |
| `Members.PositionOfId` | src/room/member.rs:197-199 | Finds a member with the id, or there is none |
| `Members.PositionOfConnection` | src/room/member.rs:216-220 | Finds a member on the connection, or there is none |
| `Members.PositionOfNickname` | src/room/member.rs:209-213 | Finds a member of that exact nickname, or there is none |
| `Members.AddKeepsTable` | src/room/member.rs:150-185 | Adding keeps ids increasing and nicknames, connections and keys distinct |
| `Members.RemoveKeepsTable` | src/room/member.rs:188-195 | Removing keeps the table and takes away exactly one id |
| `Members.SetColorKeepsTable` | src/room/member.rs:202-206 | A colour change keeps the table and its ids |
| `Requests.PositionOfRequest` | src/admission/queue.rs:124-129 | Finds the request with the id, or there is none |
| `Replay.Retained` | src/chat/replay.rs:47-49 | Keeps exactly the marks of the given epoch |
| `Session.PositionOfView` | src/chat/session.rs:152-156 | Finds the listed member with the id, or there is none |
| `Actor.RetainNot` | src/room/actor.rs:970 | Removes the id wherever it occurs and nothing else |
| `Actor.PositionOfTimeout` | src/room/actor.rs:547-551 | Finds the timeout request with the id, or there is none |
| `RoomActors.RoomActor.Establish` | src/room/actor.rs:239-294 | Creates and starts a room with epoch 1 pending and the room invariant, or refuses exactly a host nickname that does not validate |
| `RoomActors.RoomActor.Broadcast` | src/room/actor.rs:846-861 | One message to every member but those skipped, in table order |
| `RoomActors.RoomActor.WrapEveryone` | src/room/actor.rs:926-944 | One wrap per member in table order, and the members to wait for in the same order |
| `RoomActors.RoomActor.DeferAllGone` | src/room/actor.rs:1030-1032 | Queues one announcement per evicted member |
| `RoomActors.RoomActor.Evict` | src/room/actor.rs:1014-1028 | Removes the members that are still there, in order |
| `RoomActors.RoomActor.EndAdmissions` | src/room/actor.rs:798-811 | Withdraws every request and forgets every connection that is not a member |
| `RoomActors.RoomActor.HandleEventAt` | src/room/actor.rs:356-452 | One event, in place, is exactly the step the theorems speak of, and keeps the invariant |
| `ChatSessions.ChatSession.Forget` | src/chat/session.rs:172-174 | Removes exactly the entries of the id |
| `ChatSessions.ChatSession.Replace` | src/chat/session.rs:177-188 | Lists exactly the snapshot |
| `Frames.ChunkingIndependence` | src/protocol/frame.rs:173-218 | For every stream and every split, feeding piece by piece equals feeding at once: same frames, same residual, or same error |
| `Frames.ChunkedRoundTrip` | src/protocol/frame.rs:125-218 | Any list of frames that fit, in any chunks, decodes to itself with an empty buffer |
| `Frames.FramesRoundTrip` | src/protocol/frame.rs:125-144 | The concatenated encodings of any list of frames that fit decode to that list |
| `Frames.RoundTripExactly` | src/protocol/frame.rs:125-144 | A frame within the configured limit survives encoding exactly if its body length fits the 32-bit length field |
| `Frames.DecodedIsWire` | src/protocol/frame.rs:173-218 | What the decoder consumed is byte for byte the encoding of the frames it returned |
| `Headers.HeaderAnswered` | src/protocol/frame.rs:173-218 | What the decoder answers to any header: a length outside the limits, an incomplete frame, a wrong version, an unregistered type, flags, or the frame |
| `Frames.ResidualBound` | src/protocol/frame.rs:152-154 | After a feed that succeeds less than max(8, 4 + limit) bytes stay buffered |
| `Frames.FrameDecoder.FeedChunk` | src/protocol/frame.rs:173-218 | Returns every complete frame and keeps an incomplete one, or fails without frames; the buffer shrinks every round |
| `Transcripts.TranscriptsAreInjective` | src/crypto/transcript.rs:54-281 | Equal host-hello, join-request, room-event or chat transcripts are of one kind and have equal inputs; only the join request needs a bound on its two variable fields |
| `Transcripts.EventIsDetermined` | src/crypto/transcript.rs:54-109 | What is signed for a room event determines session, sequence, epoch, event kind and the whole body |
| `Layouts.HostHelloLayout` | src/crypto/transcript.rs:215-240 | The bytes of the host hello, part by part in the order of section 17 of docs/protocol-v1.md |
| `Layouts.JoinRequestLayout` | src/crypto/transcript.rs:266-283 | The bytes of the join request, likewise |
| `Layouts.RoomEventLayout` | src/crypto/transcript.rs:54-72 | The bytes of a room event, likewise |
| `Layouts.ChatLayout` | src/crypto/chat.rs:45-62 | The bytes of a chat message and of its additional data, likewise |
| `Layouts.BodyLayout` | src/crypto/transcript.rs:74-109 | The bytes of every event body, and its type |
| `Layouts.SignedForm` | src/admission/host.rs:234-266 | What an applicant signs: both nonces, its nickname, the hash of its introduction, its keys, the address and the hash of the token |
| `Layouts.SignedHello` | src/admission/host.rs:110-161 | What the host signs for a hello |
| `Transcripts.SnapshotIsInjective` | src/crypto/transcript.rs:97-109 | Equal snapshot bodies list equal members, at any length |
| `Transcripts.BindingIsInjective` | src/crypto/chat.rs:45-62 | Equal additional data bind the same version, session, epoch, sender, sequence and type |
| `Transcripts.FieldsArePrefixFree` | src/crypto/transcript.rs:135-173 | Field lists of one schema cannot be confused, whatever follows them |
| `Transcripts.OneVariableIsInjective` | src/crypto/transcript.rs:159-166 | With one variable field the total length stands in for a bound, although the length prefix truncates |
| `Transcripts.LabelByte` | src/crypto/transcript.rs:17-26 | A transcript shows its domain label at a fixed place |
| `Transcripts.BuildTranscript` | src/crypto/transcript.rs:54-72 | The builder appends the fields in order |
| `Transcripts.BuildSnapshotBody` | src/crypto/transcript.rs:97-109 | The builder appends the count and every member in order |
| `Membership.SnapshotRoundTrip` | src/protocol/membership.rs:364-411 | Strict decoding inverts encoding, consuming all input, for exactly the snapshots within the limits |
| `Membership.SnapshotReadsBack` | src/protocol/membership.rs:364-399 | The same for the entries of the snapshot map in any order and those of every member in an order of its own |
| `Membership.MemberReadsBack` | src/protocol/membership.rs:30-70 | A member reads back from its entries in any order, whatever follows, exactly if it is within the limits |
| `Stretching.AcceptedIsWhole` | src/protocol/strict.rs:214-220 | Whatever payload is accepted, with anything after it it is refused as having trailing data |
| `Stretching.NothingAfterSnapshot` | src/protocol/strict.rs:214-220 | In particular after the encoding of any snapshot within the limits, in any order of entries |
| `Accepted.AcceptedSurvives` | src/protocol/membership.rs:364-411 | Whatever payload is accepted, the encoder's or not, its value is well typed, within the limits, and decodes from its own encoding |
| `Accepted.HeadExactly` | src/protocol/strict.rs:108-126 | A head is read exactly from its spellings in any width |
| `Accepted.ShortestHead` | src/protocol/membership.rs:401-411 | The encoder writes the shortest of them |
| `Accepted.ScalarsExactly` | src/protocol/strict.rs:109-160 | Integers, booleans and strings are read exactly from their spellings, within the limits |
| `Utf8.WellFormedExactly` | src/protocol/strict.rs:131-143 | Text is accepted exactly if it is the UTF-8 encoding of Unicode scalar values (RFC 3629) |
| `Membership.AcceptedSnapshotHasEveryField` | src/protocol/membership.rs:364-399 | An accepted snapshot had exactly four entries, every field once |
| `Membership.AcceptedHasEveryField` | src/protocol/membership.rs:36-69 | An accepted member had exactly five entries, every field once |
| `Membership.EntriesRead` | src/protocol/strict.rs:243-258 | Reading a map collects the same whatever the order of its entries |
| `Membership.SnapshotKeepsDepth` | src/protocol/strict.rs:172-208 | Whatever the input, reading a snapshot restores the nesting depth |
| `Membership.StrictDecoder.DecodeMember` | src/protocol/membership.rs:30-70 | The map loop of a member; the depth is restored on every path, errors included |
| `Membership.StrictDecoder.DecodeMembers` | src/protocol/membership.rs:378-386 | The array loop; the depth is restored on every path |
| `Membership.StrictDecoder.DecodeSnapshotMap` | src/protocol/membership.rs:364-399 | The outer map loop; the depth is restored on every path |
| `Cbor.AcceptedKeysAreDistinct` | src/protocol/strict.rs:243-258 | For any schema and any input, a map that is accepted repeats no key |
| `Cbor.HeadRoundTrip` | src/protocol/strict.rs:108-126 | Heads of minimal width read back (section 3 of RFC 8949) |
| `Cbor.EnterRoundTrip` | src/protocol/strict.rs:222-241 | Which error an over-deep or over-large container gives, and that others are entered |
| `Cbor.MapKeepsDepth` | src/protocol/strict.rs:172-187 | A map restores the depth if its values do |
| `Cbor.ArrayKeepsDepth` | src/protocol/strict.rs:193-208 | An array restores the depth if its elements do |
| `Handshake.HandshakeCompletes` | src/admission/client.rs:297-418 | Client and host sharing an invitation complete exactly if nickname and introduction are acceptable, passwords match, keys are usable and the room is open; then both built the same transcript, the form carries the normalised nickname, and password and token are wiped |
| `Handshake.ExchangeCompletes` | src/admission/client.rs:144-175 | Hello, token and proof get through exactly if the passwords match and the host's key is usable, and leave both sides in the stated states |
| `Traces.ClientExactly` | src/admission/client.rs:144-418 | Over any turns the client is exactly as far as the first hello signed for it, the first challenge after that, the first acceptable form and the first acceptance after the form have taken it, and its member is the one of that acceptance; a rejection or anything else changes nothing |
| `Traces.RefusedTurns` | src/admission/client.rs:144-175 | A turn is an error exactly if it leaves the client as it was; a rejection while the decision is awaited is such an error |
| `Traces.ClientSends` | src/admission/client.rs:297-418 | What the client sends at each step |
| `Traces.HostExactly` | src/admission/host.rs:110-285 | Over any arrivals the host is exactly as far as the first good hello, the first good token after it, the first proof over their nonces and the first good form after that have taken it |
| `Traces.HostReplies` | src/admission/host.rs:110-285 | An arrival is refused exactly if it changes nothing, and what the host answers at each step |
| `Handshake.ApplicationsAreAuthorised` | src/admission/host.rs:170-285 | In any order of messages an application reaches the room only after hello, matching token and proof over this connection's nonces, each later than the other, under an open policy and a valid signature |
| `Handshake.OneApplication` | src/admission/host.rs:234-285 | One connection hands over at most one application |
| `Handshake.HelloAgreement` | src/admission/client.rs:297-345 | A host hello the client accepts was signed for this client's nonce, address, port and token hash, and both agree on every field |
| `Handshake.FormAgreement` | src/admission/host.rs:234-266 | An application the host accepts was signed over this connection's session, nonces, address and token hash |
| `Handshake.HostIsExplained` | src/admission/host.rs:52-63 | Every host state has its inputs behind it, in order |
| `Validation.NicknameIsStable` | src/validation.rs:69-90 | A nickname that validation accepts is accepted again unchanged, so three applications agree |
| `Nicknames.NicknameAnswered` | src/validation.rs:69-90 | The answer to any nickname: the first complaint, or the composed text without leading spaces and with every run of spaces shrunk |
| `Nicknames.CollapsedExactly` | src/validation.rs:93-102 | Splitting, dropping empty words and joining is shrinking the runs of spaces |
| `Nicknames.IntroAnswered` | src/validation.rs:104-126 | The answer to any introduction |
| `Validation.AcceptedIsTight` | src/validation.rs:57-68 | An accepted nickname is non-empty and has no outer and no double spaces |
| `Validation.CollapseIsIdempotent` | src/validation.rs:93-102 | Collapsing twice is collapsing once |
| `Validation.CollapsedIsComposed` | src/validation.rs:73-80 | Collapsing composed text leaves it composed |
| `Validation.PiecesOfJoined` | src/validation.rs:95-100 | Splitting at spaces undoes joining with them |
| `Validation.Collapse` | src/validation.rs:93-102 | The loop joins the non-empty words with single spaces |
| `Admission.HostAdmission.OnClientHello` | src/admission/host.rs:110-161 | Answers a hello with the signed transcript of its inputs |
| `Admission.HostAdmission.OnMessage` | src/admission/host.rs:170-183 | Dispatches by state; anything out of turn is refused without effect |
| `Admission.ClientAdmission.OnHostMessage` | src/admission/client.rs:144-175 | Dispatches by state; an acceptance admits |
| `Admission.ClientAdmission.SubmitForm` | src/admission/client.rs:373-418 | Normalises before signing, and signs what it sends |
| `Uri.InvitationRoundTrip` | src/uri.rs:83-92 | Every invitation `new` lets through parses back from its URI to itself |
| `UriGrammar.ParsesExactly` | src/uri.rs:99-186 | A text is parsed to an invitation exactly if it spells it: scheme, address, decimal port, and version and token in either order, each once and nothing besides |
| `UriGrammar.BadParameters` | src/uri.rs:124-173 | A repeated name and an unknown name are errors of their own |
| `UriGrammar.Decode64Exactly` | src/uri.rs:158-165 | Unpadded URL-safe base 64: a text decodes to data exactly if it is their encoding |
| `UriGrammar.AlphabetsExactly` | src/constants.rs:22 | The two alphabets of RFC 4648, symbol by symbol |
| `UriGrammar.AddressExactly` | src/uri.rs:188-250 | An address is accepted exactly if it is that of some key, with its checksum and version |
| `Uri.ParsedIsValid` | src/uri.rs:99-186 | Whatever text parses, the invitation satisfies `new`, and its canonical URI parses to it |
| `Uri.BodyBytesDecodes` | src/uri.rs:224-246 | The address body is decoded exactly where some bytes have that base-32 text |
| `Uri.Decode64Inverts` | src/uri.rs:86-91 | Unpadded URL-safe base 64 decodes to what was encoded (section 5 of RFC 4648) |
| `Uri.DecimalRoundTrip` | src/uri.rs:254-266 | A printed number has its own value |
| `Uri.ReadQuery` | src/uri.rs:124-173 | The parameter loop stops at the first error and remembers names |
| `Base32.DecodeBase32` | src/uri.rs:224-246 | Decodes exactly the texts that are the base-32 value of some bytes followed by zero bits (section 6 of RFC 4648); otherwise none |
| `Base32.DecodingIsInjective` | src/uri.rs:224-246 | At each length one text has one decoding and one decoding one text |

## Left out

- Cryptographic primitives (Ed25519, X25519, HKDF, XChaCha20-Poly1305, Argon2id, SHA-2, SHA-3), zeroisation and constant-time comparison: library code, taken as ideal functions.
- Networking, Tor, the room task's event loop and its handling of errors, the terminal interface and command parsing: wiring around the modelled logic.
- The `Creating` state before `start`: events arriving then are not rejected by the code, and the room invariant does not cover it.
- The text of notices, reasons and error messages: only their kind is kept; the invitation token's value in the room is not part of a room state.
- RoomActors.RoomActor.EndAdmissions: the closes that the source sends while walking a hash map are one action for the set of connections, so their order is not modelled.
- RoomActors.RoomActor.Close: likewise, shutting down and closing every connection is one action for the set of them.
- Rate limiters inside the room are values in a map rather than objects; the object is proved equal to the same function in `ratelimit.dfy`. Token counts are real numbers, so the rounding of `f64` is not modelled.
- Colours in `MemberViews.TablesAgree`: a member's colour can lag behind the table's, because colour changes travel as envelopes that a newcomer may not be able to open yet.
- MemberViews.RelayedIsRead: promises a reading to everybody only while the room is Open or Locked, because during a transition a member may chat before the others have installed it.
- Handshake.HelloAgreement: agreement on the token is agreement on its hash, since hashing is a function without assumptions.
- Frames.FrameDecoder.FeedChunk: says nothing about the buffer after an error, which the source declares terminal.
- The other CBOR schemas (handshake, epoch, control and single-member messages): the same loops as the snapshot schema, with fewer levels.
- The onion address checksum in `uri.dfy` is computed with a digest parameter instead of SHA3-256.
- The admission guard, the outbound queue and the limit constructors: single-branch facts.
- The ciphertext limit of 4112 bytes in `src/constants.rs` against the CBOR byte-string limit of 4096 in `src/limits.rs`: payloads have no length here.
