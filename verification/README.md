# torrent-peer, modelled and verified

torrent-peer is a single-threaded BitTorrent client. A session drives five
managers that never call each other: pieces, bans, peers, disk and trackers. The
properties that matter span several of these objects and whole runs, so the
project has two layers.

* On values: every manager is a datatype with functions for its operations. The
  session is a transition system (`Engine`) whose steps are a handshake, one
  incoming message, a partial send, a dropped connection, one dispatched event, a
  timeout, the notice of completion and one scheduled request. Map iteration
  order, random choices, the clock, what peers send and what the kernel accepts
  are left open, and a history records what the state alone cannot show. The
  invariant is proved step by step (`Delivery`, `Membership`, `Dispatching`,
  `Arrivals`, `Runs`) and read off as guarantees over every run (`Guarantees`,
  `Honesty`, `Verdicts`, `Availability`, `Reporting`,
  `Progress`, and connection by connection `Conversations`, `Waiting`, `Speech`,
  `Serving`, `Streams`, `Hearing`).
* In place: the classes `PieceManager`, `BanManager`, `PeerManager`,
  `DiskManager`, `Session`, `WriteQueue`, `ReadBuffer`, `Bitfield`,
  `BencodeParser`, `TrackerSession` and `TrackerManager` update their fields as
  the source does, loop by loop, and each method is proved to perform the step
  that the value layer talks about.

SHA-1 is an arbitrary function. Only `Honesty` and `Progress` assume anything
about it, namely that it tells the true content of each piece from everything else.

One promise turns out false of the code. The availability counter of a piece is
meant to be the number of connected peers that have it, but a bitfield is counted
in full even when some of its pieces were already announced with have messages.
`Availability.CountedTwice` is a run on which one holder is counted twice, and
`Availability.FrequencyExact` says exactly when the count is right.

A second one holds only up to a size. The reader refuses frames longer than 2^20
bytes, and nothing keeps a bitfield below that, so a client of this kind can read
the greeting of another exactly up to 8388600 pieces (`Streams.GreetingReadable`).

| files | content |
|---|---|
| `Types`, `Torrent` | shared records, piece geometry |
| `Pieces`, `Bans`, `Swarm`, `Outbox` | the managers on values |
| `Engine`, `Invariant`, `Delivery`, `Membership`, `Dispatching`, `Arrivals`, `Runs` | the session as a transition system and its invariant |
| `Guarantees`, `Honest`, `Verdicts`, `Availability`, `Reporting`, `Progress` | the guarantees over every run: requests, blame and bans, counts, what trackers hear, and that downloads can finish |
| `Conversations`, `Waiting`, `Speech`, `Serving`, `Streams`, `Hearing` | each connection over every run: what the peer said, what it is waited for and told, what it gets for asking, the bytes on the wire, and what another client makes of them |
| `Wire`, `WriteQueue`, `Bitfield` | the peer protocol on bytes |
| `PieceManager`, `BanManager`, `PeerManager`, `DiskManager`, `Session` | the managers in place |
| `Bencode`, `BencodeParser`, `Paths`, `Metainfo` | torrent files |
| `TrackerReply`, `Tracker`, `TrackerProgress`, `TrackerTiming`, `TrackerManager` | UDP trackers (BEP 15) |

`dafny verify dfyconfig.toml` checks the whole project.

## Model

| member | source | states |
|---|---|---|
| `Guarantees.RequestsConserved` | src/runtime/managers/piece_manager.hpp:37-41 | in every state of every run a request stands at most once among all pending lists, undispatched piece events and undispatched released lists, and it stands there exactly when its block is Requested |
| `Guarantees.StaleIsPrefix` | src/core/types.hpp:39-48 | in every run a pending list has at most 32 requests in send order, so the prefix that is taken as stale is exactly the set of requests older than the cutoff |
| `Guarantees.ArrivalsFiled` | src/runtime/session.cpp:165-193 | no piece event that Session dispatches is ever rejected; when one completes a piece, every sender slot has been written, each slice of the bytes judged is the block which that slot's peer sent in this attempt, and the bytes are those blocks in order |
| `Guarantees.ArrivalsAreRecent` | src/runtime/managers/piece_manager.cpp:71-83 | every block on record for a piece was filed since the last verdict on that piece, so a retry never counts a block of an attempt that failed |
| `Guarantees.ArrivalsWereSent` | src/runtime/managers/peer_manager.cpp:525-553 | every block on record came in an earlier piece message of the very peer it is attributed to, for that block and with those bytes |
| `Guarantees.FailureIsHandled` | src/runtime/managers/ban_manager.cpp:21-43 | a failed piece with one sender yields exactly that sender's host; with several senders nobody is banned and the evidence on file is a copy that fails the hash check: the one already there, else this attempt's bytes with its senders |
| `Guarantees.EvidenceConvicts` | src/runtime/managers/ban_manager.cpp:45-73 | verifying a piece with kept evidence yields exactly the hosts of the mismatching blocks, each once and always at least one, so the "every block matches" warning is unreachable |
| `Honesty.HonestNeverBanned` | src/runtime/managers/ban_manager.cpp:13-73 | if the hash accepts only the true content, then on every run no host whose peers only ever send true blocks is banned, whatever other hosts do |
| `Guarantees.NoBannedConnections` | src/runtime/managers/peer_manager.cpp:697-709 | in every state of every run no established connection belongs to a banned host |
| `Guarantees.OwnedIsVerified` | src/runtime/managers/piece_manager.cpp:120-134 | in every state of every run each owned piece has bytes on disk that pass the hash check, the piece count is exact, and bytes_left is 0 exactly when every piece is owned |
| `Guarantees.OwnedStays` | src/runtime/session.cpp:165-193 | a piece owned at one point of a run is owned at every later point, with the same bytes on disk |
| `Guarantees.ServedIsVerified` | src/runtime/session.cpp:202-221 | every block sent or queued to a live peer is the named slice of a piece on disk that passes the hash check; the queued byte count is the exact sum and queued piece messages stay below 4 MiB + 13 + 16384 bytes |
| `Guarantees.AnnouncedIsOwned` | src/runtime/session.cpp:42-51 | on every greeted connection the stream is handshake and keep-alives, then one bitfield, then other messages, and bitfield plus have messages announce exactly the owned pieces, each once; before the greeting nothing is announced |
| `Speech.StreamIsScript` | src/runtime/session.cpp:42-51 | in every run the stream of a live connection, blocks aside, is message for message what the steps so far call for: our handshake if owed, then at the greeting our bitfield, unchoke, and interested exactly if a piece is missing, a have message for every piece completed since, and the requests and keep-alives as they were made |
| `Speech.RequestsAreSent` | src/runtime/managers/peer_manager.cpp:646-654 | in every run the requests in the stream are exactly those the scheduler made to this peer, in order, so every pending request stands in the stream in these very terms |
| `Speech.OnlyAnswersAreTaken` | src/runtime/managers/peer_manager.cpp:541-553 | a block a peer sends is only ever taken as the answer to a request that stands in the stream to that peer |
| `Waiting.PendingIsOpen` | src/runtime/managers/peer_manager.cpp:445-553 | in every run a request is pending exactly from the step that made it until the peer chokes us, sends that block, or a timeout has a later cutoff than the request; none is pending twice |
| `Waiting.AskedWhenAllowed` | src/runtime/session.cpp:110-126 | in every run a peer is only asked when its last word was an unchoke, when fewer than 32 requests are pending, or none if it is snubbed, and only for a block of a piece it said it has and we do not own |
| `Waiting.RarestFirst` | src/runtime/managers/piece_manager.cpp:16-47 | in every run the scheduler takes the first missing block of a piece under way, and starts another piece only when the peer has none under way to help with; then it is one no more available than any other it could start |
| `Conversations.PeersAreUnderstood` | src/runtime/managers/peer_manager.cpp:440-503 | in every run a connected peer chokes us unless it has sent byte 1 and not byte 0 since, is interested if it has sent byte 2 and not byte 3 since, and has exactly the pieces its have messages and its first bitfield name, a well-formed first bitfield replacing what was announced before |
| `Conversations.SnubsAreEarned` | src/runtime/session.cpp:90-97 | in every run a connected peer is snubbed exactly if a timeout found a request to it overdue and it has answered no request since |
| `Serving.GreetedMayAsk` | src/runtime/managers/peer_manager.cpp:505-510 | in every run we choke a connection exactly until it has been greeted |
| `Serving.RequestsAreServed` | src/runtime/session.cpp:202-221 | in every run a request message of a greeted peer, as bytes, is queued; from then on it waits, or the peer takes it back, or it is dispatched, and then the block is appended to the stream exactly if the peer is there, the piece is owned, the range lies within it and less than 4 MiB are queued |
| `Serving.BlocksAreServed` | src/runtime/session.cpp:202-221 | in particular every block of every owned piece, the last one included, is sent when asked for |
| `Serving.CancelsTakeBack` | src/runtime/managers/peer_manager.cpp:555-584 | in every run a cancel message takes back the latest waiting request for the block, else the first queued copy of the block that is not partly sent, else nothing |
| `Serving.OnlyIllegalIsRefused` | src/runtime/managers/peer_manager.cpp:433-591 | in every run a message is refused exactly when it breaks the protocol: a have or first bitfield that does not fit the torrent, a request or cancel of the wrong size or for more than 16384 bytes, a short piece message |
| `Hearing.OthersUnderstand` | src/runtime/managers/peer_manager.cpp:433-591 | another client of this kind that has heard nothing from us yet and lets us ask, once it has handled our stream: it refuses no message, takes us to have exactly the pieces we own, knows whether we choke it and are interested, and holds exactly the requests our scheduler made to it, in order |
| `Hearing.BytesAreUnderstood` | src/runtime/managers/peer_manager.cpp:76-91 | the same from the bytes on the wire, for every torrent whose bitfield can be read |
| `Hearing.DecodesBody` | src/runtime/managers/peer_manager.cpp:100-119 | the readers of this client get every message back from its frame, each field from its place and each kind from its number |
| `Verdicts.OnlyTheConvictedAreBanned` | src/runtime/session.cpp:195-200 | in every run the banned hosts are exactly those named by the verdicts so far |
| `Verdicts.ConnectionsLast` | src/runtime/managers/peer_manager.cpp:676-709 | in every run a finished handshake is a connection, with the host of the handshake, exactly until it is dropped or its host is named by a verdict |
| `Reporting.CompletedOnlyWhenEarned` | src/runtime/session.cpp:99-105 | on every joint run of a session and its trackers, an announce with the event completed only ever goes out if the session started incomplete and is complete now; in particular never when resuming a complete download |
| `Reporting.JointRunInv` | src/runtime/session.cpp:99-105 | in every joint state all trackers meet their invariant and know of completion exactly when the session has noticed it |
| `Reporting.CompletionIsNoticed` | src/runtime/session.cpp:99-105 | when the session looks, it notices completion exactly if every piece is owned, and then every tracker knows of it exactly if the session started incomplete |
| `Availability.FrequencyExact` | src/runtime/managers/peer_manager.cpp:671-674 | the 16-bit availability count of a piece equals the number of connected holders if and only if the number of bitfields that came after their peer already had the piece is a multiple of 2^16 |
| `Availability.CountedTwice` | src/runtime/managers/peer_manager.cpp:493-503 | a concrete run on an accepted one-byte torrent (handshake, greeting, have message, bitfield) after which one holder is counted twice |
| `Progress.WantedPieceCanBeOwned` | src/runtime/session.cpp:90-126 | from every state of every run in which a peer that has the piece is connected and does not choke us, its host having sent only true blocks, our own steps and true answers of that one peer lead to a state that owns the piece: no requested block and no failed attempt is stuck for good |
| `Progress.DownloadHappens` | src/runtime/session.cpp:53-146 | a concrete run (handshake, greeting, have message, unchoke) after which the only piece can be owned, so the states of the previous row are reached |
| `Progress.AttemptEnds` | src/runtime/managers/piece_manager.cpp:49-84 | a piece under way can be carried on to its verdict by one honest peer; if every block on record was true it is owned then, otherwise it may fail and its record is cleared |
| `Progress.Settle` | src/runtime/session.cpp:90-97 | dispatching what waits and letting every request time out leads to a state without events and without requests |
| `Progress.NoneRequested` | src/runtime/managers/piece_manager.hpp:37-41 | when no event waits and no connection has a pending request, no block is marked Requested |
| `Runs.RunInv` | src/runtime/session.cpp:53-146 | every state of every run meets the joint invariant of the piece table, the ban tables, the connections, the event queue and the disk |
| `Runs.NextInv` | src/runtime/session.cpp:53-146 | every single step keeps that invariant: handshakes, messages, sends, drops, dispatches, timeouts, completion, scheduling |
| `Delivery.DeliverInv` | src/runtime/managers/peer_manager.cpp:433-591 | any message of any peer, well formed or not, keeps the invariant |
| `Membership.DropInv` | src/runtime/managers/peer_manager.cpp:678-695 | dropping a connection hands back exactly its pending requests and keeps the invariant |
| `Membership.BanInv` | src/runtime/managers/peer_manager.cpp:697-709 | banning a host, with its connections listed in any order, keeps the invariant |
| `Arrivals.ArrivedInv` | src/runtime/session.cpp:165-193 | filing an arrived block, with the verdict, the write, the announcement and the bans it leads to, keeps the invariant |
| `Runs.DispatchInv` | src/runtime/session.cpp:148-163 | dispatching the first queued event, whichever it is, keeps the invariant |
| `Runs.ExpireInv` | src/runtime/session.cpp:90-97 | giving stale requests back keeps the invariant |
| `Runs.ScheduleInv` | src/runtime/session.cpp:110-126 | asking a peer for a picked block keeps the invariant |
| `Honesty.VerifiedHonest` | src/runtime/managers/ban_manager.cpp:45-73 | the verdict of a verified piece names no host all of whose recorded blocks are true |
| `Honesty.FailedHonest` | src/runtime/managers/ban_manager.cpp:21-43 | the verdict of a failed piece names no such host, and the evidence kept of it is right about such hosts |
| `Pieces.ArrivalAccepted` | src/runtime/managers/piece_manager.cpp:49-84 | a block that was asked for is never rejected, and filing it makes exactly that one request disappear |
| `Pieces.AcceptedWf` | src/runtime/managers/piece_manager.cpp:49-84 | filing any block keeps the received counts, the owned count and the owned bytes exact |
| `Pieces.StoredSlices` | src/runtime/managers/piece_manager.cpp:63-69 | copying a block in replaces that block's slice of the piece buffer and no other |
| `Pieces.PickRequests` | src/runtime/managers/piece_manager.cpp:16-47 | a pick turns exactly one block that was not requested into a requested one, of a piece the peer has and we do not |
| `Pieces.PickKeepsExhausted` | src/runtime/managers/piece_manager.cpp:16-47 | a pick for one peer never creates work for a peer that had none left |
| `Pieces.ReleaseGivesBack` | src/runtime/managers/piece_manager.cpp:86-99 | giving back requests that are out makes exactly those blocks requestable again |
| `Pieces.CountersExact` | src/runtime/managers/piece_manager.hpp:52 | bytes_left does not underflow; it is 0 exactly when the piece count is full, which is exactly when every piece is owned |
| `PieceManagers.PieceManager.PickBlock` | src/runtime/managers/piece_manager.cpp:16-47 | picks the first missing block of an in-progress piece the peer can help with, else starts a piece that is rarest among those the peer could start, else nothing is left for this peer |
| `PieceManagers.PieceManager.NextMissing` | src/runtime/managers/piece_manager.cpp:107-118 | marks the first missing block as requested and returns its request, or leaves everything alone when none is missing |
| `PieceManagers.PieceManager.RarestStartable` | src/runtime/managers/piece_manager.cpp:26-41 | returns only startable pieces of minimal availability, and none only if the peer can start none |
| `PieceManagers.PieceManager.OnBlock` | src/runtime/managers/piece_manager.cpp:49-84 | the in-place update is the specification that the run results are about |
| `PieceManagers.PieceManager.Release` | src/runtime/managers/piece_manager.cpp:86-99 | gives back exactly the listed blocks that are still requested |
| `PieceManagers.PieceManager.Recheck` | src/runtime/managers/piece_manager.cpp:124-128 | a piece becomes owned exactly when its bytes pass the hash check, and the counters stay exact if it was not owned before |
| `PieceManagers.PieceManager.IsComplete` | src/runtime/managers/piece_manager.cpp:120-122 | complete exactly when every piece is owned |
| `PieceManagers.PieceManager.BytesLeft` | src/runtime/managers/piece_manager.hpp:52 | the total minus the bytes of the owned pieces, and 0 exactly when all are owned |
| `Bans.BlamedExactly` | src/runtime/managers/ban_manager.cpp:53-72 | the hosts blamed are exactly the known hosts of mismatching blocks, each once |
| `Bans.FailedCopyIsBlamed` | src/runtime/managers/ban_manager.cpp:53-72 | a failed copy compared with a verified one always blames somebody when all senders are known |
| `BanManagers.BanManager.OnBlock` | src/runtime/managers/ban_manager.cpp:13-19 | records the sender of a block in its slot |
| `BanManagers.BanManager.OnPieceFailed` | src/runtime/managers/ban_manager.cpp:21-43 | the in-place update is the specification that the run results are about |
| `BanManagers.BanManager.OnPieceVerified` | src/runtime/managers/ban_manager.cpp:45-73 | the comparison loop computes the blamed hosts and forgets senders and evidence of the piece |
| `Wire.ChunkingIrrelevant` | src/runtime/managers/peer_manager.cpp:385-395 | however a stream is cut into chunks, the same messages come out, the same bytes are left over and a bad length is noticed at the same place |
| `Wire.ExtractBuilt` | src/runtime/managers/peer_manager.cpp:76-108 | extracting a built message returns it and the rest of the buffer, and fails exactly when the framed length exceeds 2^20 |
| `Wire.DrainBuilt` | src/runtime/managers/peer_manager.cpp:76-108 | a stream of built messages is read back as the same messages in order |
| `Wire.ReadBuffer.Feed` | src/runtime/managers/peer_manager.cpp:385-395 | one read appends the chunk and extracts every complete message |
| `Wire.ByteTestExact` | src/runtime/managers/peer_manager.cpp:124-141 | the byte test for a queued piece message matches that message and no other message this client can send |
| `Wire.BigEndian` | src/runtime/managers/peer_manager.cpp:110-119 | four bytes are read most significant first, and written back as they were |
| `WriteQueues.StreamStaysFramed` | src/runtime/managers/peer_manager.cpp:344-366 | for any mix of enqueue, partial send and cancel, bytes sent plus bytes left are the enqueued messages, whole and in order, without exactly those that a cancel took back; each of these is named by the one cancel that took it, and each cancel takes at most one; the byte count is the exact sum |
| `WriteQueues.NothingLost` | src/runtime/managers/peer_manager.cpp:344-366 | as long as no cancel names an enqueued message, bytes sent plus bytes left are all enqueued messages |
| `Streams.WireCarriesMessages` | src/runtime/managers/peer_manager.cpp:344-366 | on every run and for every live connection, the bytes the kernel has taken plus those still queued are the encodings of the delivered and queued messages, in order, with a handshake at most in first place |
| `Streams.PeersReadTheMessages` | src/runtime/managers/peer_manager.cpp:76-91 | reading those bytes the way this client reads gives, after the handshake, exactly these messages if the torrent has at most 8388600 pieces or no bitfield is among them, and fails on a bad length otherwise |
| `Streams.GreetingReadable` | src/runtime/managers/peer_manager.cpp:76-91 | the bitfield of a greeting is accepted by the reader exactly up to 8388600 pieces; above that its length is refused |
| `WriteQueues.WriteQueue.Push` | src/runtime/managers/peer_manager.cpp:666-669 | appends a message and counts it |
| `WriteQueues.WriteQueue.Sent` | src/runtime/managers/peer_manager.cpp:344-366 | moves the cursor, and drops the front message from queue and count once it is fully sent |
| `WriteQueues.WriteQueue.RemoveQueuedPiece` | src/runtime/managers/peer_manager.cpp:124-141 | removes the first matching piece message that has not begun to go out; says no exactly when there is none |
| `WriteQueues.CancelOnWire` | src/runtime/managers/peer_manager.cpp:124-141 | cancelling by message and cancelling by bytes remove the same entry |
| `Bitfields.PackRoundTrip` | src/core/bitfield.hpp:19-38 | packing a set of pieces and reading the bytes back gives the set, and the bytes are accepted |
| `Bitfields.AcceptedIsPacking` | src/core/bitfield.hpp:19-28 | bytes are accepted exactly when they are the packing of some set of pieces |
| `Bitfields.HighestFirst` | src/core/bitfield.hpp:30-38 | the first piece of every byte is its highest bit and the eighth its lowest |
| `Bitfields.Bitfield.Set` | src/core/bitfield.hpp:35-38 | adds one piece to the set the bytes stand for; out of range is refused |
| `PeerManagers.PeerManager.HandleMessage` | src/runtime/managers/peer_manager.cpp:433-591 | the in-place handler does to connections, counters, outbox and event queue what the run results are about |
| `PeerManagers.PeerManager.OnChoke` | src/runtime/managers/peer_manager.cpp:446-459 | empties the pending list into a released list |
| `PeerManagers.PeerManager.OnHave` | src/runtime/managers/peer_manager.cpp:476-491 | a new piece of the peer is counted once; a bad length or index is a protocol error |
| `PeerManagers.PeerManager.OnBitfield` | src/runtime/managers/peer_manager.cpp:493-503 | the first bitfield replaces the peer's pieces and counts all of the new ones, later ones are ignored, and a malformed one is a protocol error |
| `PeerManagers.PeerManager.OnPiece` | src/runtime/managers/peer_manager.cpp:525-553 | only a block that answers a pending request, by piece, offset and length, becomes an event and leaves the list |
| `PeerManagers.PeerManager.OnCancel` | src/runtime/managers/peer_manager.cpp:555-584 | removes a not yet dispatched request event, else a queued piece message |
| `PeerManagers.PeerManager.RemoveQueuedPiece` | src/runtime/managers/peer_manager.cpp:124-141 | the search loop finds the entry that the specification cancels |
| `PeerManagers.PeerManager.ApplyAvailability` | src/runtime/managers/peer_manager.cpp:671-674 | adds or subtracts one, modulo 2^16, for exactly the pieces in the set |
| `PeerManagers.PeerManager.SendRequest` | src/runtime/managers/peer_manager.cpp:593-654 | queues the request and appends it to the pending list with its time |
| `PeerManagers.PeerManager.BroadcastHave` | src/runtime/managers/peer_manager.cpp:656-664 | queues one have message on every connection |
| `PeerManagers.PeerManager.Drop` | src/runtime/managers/peer_manager.cpp:678-695 | removes the connection, uncounts its pieces and reports its pending requests as released |
| `PeerManagers.PeerManager.IdsOf` | src/runtime/managers/peer_manager.cpp:700-706 | lists every connection of the host once |
| `PeerManagers.PeerManager.Ban` | src/runtime/managers/peer_manager.cpp:697-709 | records the host and drops all of its connections, in whatever order the map lists them |
| `PeerManagers.PeerManager.Promote` | src/runtime/managers/peer_manager.cpp:861-876 | turns a finished handshake into a connection with a fresh id |
| `Sessions.Session.Start` | src/runtime/session.cpp:32-37 | owns exactly the pieces whose bytes on disk verify, and starts a run; with new trackers, a joint run |
| `Sessions.Session.Deliver` | src/runtime/managers/peer_manager.cpp:433-591 | one message is one delivery step of a run |
| `Sessions.Session.DispatchNext` | src/runtime/session.cpp:148-163 | one event is one dispatch step of a run |
| `Sessions.Session.OnPiece` | src/runtime/session.cpp:165-193 | files the block, writes and announces a verified piece, and bans whom the verdict names |
| `Sessions.Session.OnAsked` | src/runtime/session.cpp:202-221 | answers only for owned pieces, in range, to a peer with room in its queue |
| `Sessions.Session.BanHosts` | src/runtime/session.cpp:195-200 | bans each host once and gives back what its connections were asked for |
| `Sessions.Session.TakeStale` | src/core/types.hpp:39-48 | splits the pending list at its first request that is not older than the cutoff |
| `Sessions.Session.ExpireAll` | src/runtime/session.cpp:90-97 | every connection loses exactly its requests sent before the cutoff and is snubbed if it had any; timeout steps alone lead there |
| `Sessions.Session.NoticeComplete` | src/runtime/session.cpp:99-105 | one step of a joint run: completion is noticed once, and with it every tracker takes its finish step |
| `Sessions.Session.TickTrackers` | src/runtime/session.cpp:80-88 | every tracker takes its packet step and then its timer step, which are steps of a joint run; the session stays as it is, and the peers found are those of the replies in order |
| `Sessions.Session.BeginShutdown` | src/runtime/session.cpp:223-228 | one step of a joint run: every tracker takes its shutdown step |
| `Sessions.Session.ScheduleAll` | src/runtime/session.cpp:110-126 | work conservation: afterwards every unchoked peer that has room for a request has nothing left that is still wanted, where a snubbed peer has room only with nothing pending and any other below 32 requests; snubbed peers are left alone until every other peer is served, and then only they are asked; scheduling steps alone lead there |
| `DiskManagers.BuildLayout` | src/runtime/managers/disk_manager.cpp:101-128 | the kept files tile the content without gap or overlap, and the check fails exactly when the lengths do not add up |
| `DiskManagers.DiskManager.Locate` | src/runtime/managers/disk_manager.cpp:131-137 | the binary search finds the file that contains the offset |
| `DiskManagers.DiskManager.WritePiece` | src/runtime/managers/disk_manager.cpp:160-170 | the slice loop over the files is one write into the flat content, at the piece's offset and nowhere else |
| `DiskManagers.DiskManager.ReadRange` | src/runtime/managers/disk_manager.cpp:139-158 | the slice loop over the files reads exactly that range of the flat content |
| `DiskManagers.DiskManager.ReadBlock` | src/runtime/managers/disk_manager.cpp:172-192 | returns that slice of the piece, or nothing exactly when the piece or the range does not exist |
| `BencodeParsers.BencodeParser.Parse` | src/metainfo/parser.cpp:8-15 | accepts exactly the encodings of values with 64-bit integers, strictly increasing keys and at most 100 levels, and returns the encoded value; the info range is the encoding of the root dictionary's "info" value and of nothing else |
| `BencodeParsers.BencodeParser.ParseValue` | src/metainfo/parser.cpp:17-28 | reads the value whose encoding stands at the cursor, and fails only if none stands there |
| `BencodeParsers.BencodeParser.ParseInt` | src/metainfo/parser.cpp:30-64 | reads the integer whose canonical encoding stands at the cursor, and fails only if no value's encoding does |
| `BencodeParsers.BencodeParser.ParseList` | src/metainfo/parser.cpp:70-87 | reads the list whose encoding stands at the cursor, and fails only if no value's encoding does; keeps depth and info range |
| `BencodeParsers.BencodeParser.ParseDict` | src/metainfo/parser.cpp:89-122 | the same for a dictionary; only the root dictionary sets the info range |
| `BencodeParsers.BencodeParser.ParseEntry` | src/metainfo/parser.cpp:101-116 | one round of the dictionary loop reads an entry whose key comes after all earlier keys |
| `BencodeParsers.BencodeParser.ReadString` | src/metainfo/parser.cpp:128-162 | reads the string whose encoding stands at the cursor, and fails only if none stands there |
| `Bencode.ValueAgrees` | src/metainfo/parser.cpp:8-162 | no encoding is a proper prefix of another: two values whose encodings start the same input are equal |
| `Bencode.NumberDigits` | src/metainfo/parser.cpp:30-64 | a run of digits without leading zero is the decimal form of its value |
| `BencodeParsers.KeyIsNew` | src/metainfo/parser.cpp:103-107 | comparing a key with the previous key only is enough: it then differs from every earlier key |
| `Metainfo.Accept` | src/metainfo/torrent.cpp:148-163 | accepts exactly the info dictionaries with whole hashes, a piece length in range, a valid layout, a total below 2^63 and the matching piece count |
| `Metainfo.AcceptedIsValid` | src/metainfo/torrent.cpp:153-161 | every piece size of an accepted torrent is between 1 and the piece length, and the sizes add up to the lengths of the files; below 2^32 pieces this is the geometry all managers are proved for |
| `Metainfo.PieceSizeExact` | src/metainfo/torrent.cpp:83-87 | the unsigned 64-bit computation of a piece size never wraps |
| `Metainfo.CalculateTotalLength` | src/metainfo/torrent.cpp:70-81 | returns the sum of the file lengths, and fails exactly when it exceeds 2^63 - 1; no addition wraps |
| `Metainfo.GeneratePieces` | src/metainfo/torrent.cpp:61-68 | cuts the hash string into 20-byte hashes in order, and fails exactly when its length is no multiple of 20 |
| `Metainfo.ValidateLayout` | src/metainfo/torrent.cpp:26-54 | accepts exactly the layouts with one of length and files, no negative length, safe path components and no path that equals or is a directory of another |
| `Metainfo.CheckPaths` | src/metainfo/torrent.cpp:41-52 | sorting the paths and comparing neighbours accepts exactly when no path equals, or is a component-wise prefix of, another |
| `Paths.NeighboursDecide` | src/metainfo/torrent.cpp:45-52 | among sorted paths a clash anywhere is a clash between neighbours |
| `Paths.SortPaths` | src/metainfo/torrent.cpp:43 | returns a sorted permutation |
| `Paths.SafeStaysBelow` | src/metainfo/torrent.cpp:13-24 | a path of safe components, joined by slashes and resolved below any directory, names exactly itself below that directory |
| `Metainfo.TargetsAreSafe` | src/metainfo/torrent.cpp:26-54 | every file of an accepted torrent, single or of several, lands below the download directory; several land at different places, none inside another |
| `Metainfo.OpenFiles` | src/runtime/managers/disk_manager.cpp:123-127 | the disk manager's check that the lengths add up never fires for an accepted torrent |
| `Trackers.AckedInLanguage` | src/runtime/managers/tracker_manager.cpp:389-397 | in every run the events a tracker acknowledged form started none* (completed none*)? stopped? |
| `Trackers.AnnouncesAreSound` | src/runtime/managers/tracker_manager.cpp:399-428 | every announce goes out under a connection id received less than 60 seconds before; stopped only after an acknowledged started, completed only after the download finished |
| `Trackers.StoppedIsFinal` | src/runtime/managers/tracker_manager.cpp:532-533 | once Stopped a tracker stays Stopped, and nothing is sent or acknowledged any more |
| `Trackers.DeadlinesAreBounded` | src/runtime/managers/tracker_manager.cpp:20-22 | a connect waits 15*2^n seconds with n at most 8, an announce always 15 seconds; Connecting, Connected, Announcing and Idle have an open socket |
| `Trackers.RunInv` | src/runtime/managers/tracker_manager.cpp:155-182 | every state of every run meets the tracker invariant |
| `Trackers.PacketInv` | src/runtime/managers/tracker_manager.cpp:345-387 | any datagrams, in any state, keep the invariant |
| `Trackers.TimerInv` | src/runtime/managers/tracker_manager.cpp:497-538 | any timer step, with any outcome of lookup and send, keeps the invariant |
| `Trackers.RecvAnnounceCases` | src/runtime/managers/tracker_manager.cpp:431-483 | the first datagram that is not ignored decides, and it can only acknowledge the announce in flight |
| `TrackerProgress.EveryTrackerCanBeServed` | src/runtime/managers/tracker_manager.cpp:497-538 | from every state but Stopped, once the next action is due, at most six steps with an answering tracker, all at that time, get the pending event acknowledged; during shutdown the tracker then is Stopped |
| `TrackerTiming.IdleWaits` | src/runtime/managers/tracker_manager.cpp:466-474 | on every run an idle tracker has been idle since a reply and is due when the interval of that reply is over, in seconds from the reply, 0 meaning 1800 and all values held within 300 to 86400; only the end of a download not yet reported makes it due at once |
| `TrackerTiming.AnnouncesAreSpaced` | src/runtime/managers/tracker_manager.cpp:527-529 | on every run with steady clocks the next announce after a reply goes out no sooner than its interval is over, so at least 300 seconds later, unless the download or the session ends in between |
| `TrackerTiming.GrantDecides` | src/runtime/managers/tracker_manager.cpp:431-483 | an announce is acknowledged exactly if the first datagram that is not ignored grants it, and that datagram sets the interval and the peers |
| `TrackerTiming.CompletionIsPrompt` | src/runtime/managers/tracker_manager.cpp:540-546 | when the download ends, an idle tracker that knows only of the start can be told of the completion at that very time |
| `TrackerTiming.ShutdownIsPrompt` | src/runtime/managers/tracker_manager.cpp:548-574 | when the session ends, a tracker that knows of us can be told at that very time, with a fresh connection id by the announce alone; one that does not is left alone |
| `TrackerTiming.IdsWereGiven` | src/runtime/managers/tracker_manager.cpp:345-387 | on every run each connection id in use is bytes 8 to 15 of a reply to the connect request then in flight |
| `TrackerTiming.RepliesAreAwaited` | src/runtime/managers/tracker_manager.cpp:307-341 | on every run a tracker that waits for a reply has the transaction number of its last send, and its deadline counts from that send |
| `TrackerTiming.RetriesAreSpaced` | src/runtime/managers/tracker_manager.cpp:282-293 | on every run, after a back-off with n failures since the last reply nothing is tried again for 15*2^n seconds, n at most 8, unless the session ends |
| `TrackerProgress.FailuresDouble` | src/runtime/managers/tracker_manager.cpp:282-293 | on every run, a tracker that backs off after n failures since its last reply waits 15*2^n seconds, one that times out reconnects at once, and a connect waits 15*2^n seconds for its reply, with n capped at 8 |
| `TrackerProgress.RetriesCount` | src/runtime/managers/tracker_manager.cpp:489-495 | on every run the retry counter is the number of failures since the last reply, capped at 8 |
| `TrackerReplies.ReplyRoundTrip` | src/runtime/managers/tracker_manager.cpp:38-69 | a well-formed reply is read back in full, without the entries that have port 0 and without a short tail; under any other transaction id it is ignored |
| `TrackerReplies.ParseAnnounceReply` | src/runtime/managers/tracker_manager.cpp:38-69 | the parsing loop computes the specified reply |
| `TrackerManagers.TrackerManager.Tick` | src/runtime/managers/tracker_manager.cpp:155-182 | every tracker takes its packet step and then its timer step, and the peers found are those of the replies, in order; the invariant of every tracker is kept |
| `TrackerManagers.TrackerManager.OnDownloadComplete` | src/runtime/managers/tracker_manager.cpp:540-546 | every tracker takes its finish step |
| `TrackerManagers.TrackerManager.BeginShutdown` | src/runtime/managers/tracker_manager.cpp:548-574 | every tracker takes its shutdown step |
| `TrackerManagers.TrackerManager.ShutdownDone` | src/runtime/managers/tracker_manager.cpp:576-580 | true exactly when every tracker is Stopped |
| `TrackerManagers.TrackerSession.RecvConnect` | src/runtime/managers/tracker_manager.cpp:345-387 | only a connect reply to the current transaction is taken, and its time becomes the age of the id |
| `TrackerManagers.TrackerSession.SendAnnounce` | src/runtime/managers/tracker_manager.cpp:399-428 | an id of 60 seconds or more forces a reconnect; otherwise the pending event goes out |
| `TrackerManagers.TrackerSession.RecvAnnounce` | src/runtime/managers/tracker_manager.cpp:431-483 | the draining loop stops at the first datagram that is not ignored and does what the specification says |
| `TrackerManagers.TrackerSession.Advance` | src/runtime/managers/tracker_manager.cpp:497-538 | one timer step, with the log of what went out |

## Left out

- Sockets, poll, DNS threads, the clock and the random generator: what they answer is an input of the step that asks.
- Short or failing pread and pwrite: a slice operation on a file succeeds as a whole; the exceptions of a failing disk are not modelled.
- Peer ids are unbounded: the 32-bit counter that hands them out never wraps here.
- Torrents with 2^32 pieces or more: piece indices and counts are 32 bits wide in the source, and `Torrents.Torrent.Valid` excludes such torrents from everything but `Metainfo`.
- Handshake bytes and their check (src/runtime/managers/peer_manager.cpp:60-74 and 839-859), dialling, accepting and the list of known addresses: a handshake either becomes a connection or goes away.
- Received bytes at run level: a run takes whole incoming messages, as `Wire.ReadBuffer` cuts them out of the stream.
- The loop of Session::run as one method: its phases are methods of `Session`, and runs order them as the loop does only where a proof needs it (timeouts, completion and scheduling happen with an empty event queue, joins come before other events).
- Retry by a single owner: set_owner, set_retry_owner and release_retries are never called by Session, and owners are empty in every run.
- That a download does finish: `Progress` gives a continuation that owns the piece; which steps happen is up to peers and network.
- Downloaded and uploaded totals, rate reports, logging, command line, printing.
- Immediate delivery of completed to the trackers: a tracker that is announcing when the download finishes waits for its next interval.
- Fetching the typed fields of a torrent file out of the parsed dictionary, the optional fields and tracker URLs: `Metainfo.Info` starts from the fields.
- Which of several errors is reported: the parser and the layout checks say that they fail, not with which message.
- The bytes of the connect and announce requests: a send is recorded with its event, connection id and transaction number.
- am_interested of a connection: it is set together with the interested message, which `Speech.StreamIsScript` is about, and read by nothing.
- Waiting times of poll, the 5-second shutdown deadline and until_next_action.
- Paths.SortPaths: the library sort is modelled by an insertion sort; any sort gives the same sorted list.
