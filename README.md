# tp0 lottery: a Dafny model of the wire protocol and bookkeeping

This project models the core of a small distributed lottery. Each agency runs
a Go client that reads its bet file in batches. The client sends the bets to
a Python server as length-prefixed byte fields and reads the server's replies.
The server keeps track of which agencies have finished and, once all have,
of the winning bettors' documents per agency. A Python script rewrites the
docker-compose services for a given number of clients.

Modules follow the source files:

| module | file |
|---|---|
| `Wire` | the byte and string types and the length-prefixed field layout shared by every writer |
| `Socket` | the Go client's connection (`recv`, `recvByte`, `Write`, `Close`), as a class over the bytes the peer sends and a read cursor |
| `CommMessage`, `CommSerialize`, `CommCommunication` | `client/communication/message.go`, `serialize.go`, `communication.go` |
| `CommonMessage`, `CommonSerialize`, `CommonCommunication` | `client/common/message.go`, `serialize.go`, `communication.go` |
| `Batcher` | `client/common/batcher.go` |
| `ServerCommunication` | `server/common/communication.py` |
| `Server` | `server/common/server.py` |
| `GenerateCompose` | `generate_compose.py` |

A Go string is a `seq<byte>`, because Go's `len` counts bytes. A length
byte is `len % 256`: `byte(len(field))` silently wraps. Go's `recv(n)` always
returns `n` bytes, zero-filled past what the peer sent, because `io.ReadFull`'s
error is only logged. So a reply truncated after its opcode never fails and
reads as zeros where bytes are missing; one truncated before its opcode reads
as opcode 0 and is rejected as an invalid message type.

Python's `sock.recv(n)` is modelled on the bytes still pending from the peer.
It returns the next `min(n, pending)` bytes. Once everything is read it
returns `b''`, which `int.from_bytes` reads as 0. When the peer reset the
connection, that last read raises `OSError` instead.

Things the model takes as parameters:
- the answer of `net.Dial` and `conn.Write`;
- what `load_bets` returns, and the verdict of `has_won` on each bet (a flag in each loaded bet);
- the bytes of `serializeBets`, `serializeFinalizationMsg` and `serializeGetWinnersMsg`, which are not modelled.

Where the code departs from what its protocol intends, the model follows the code:
- An oversized field's length byte wraps; no error is raised. See `Wire.LengthByte`, `Socket.OversizedFieldReadsEmpty` and `CommSerialize.LongFieldBreaksRoundTrip`.
- `Connect`/`connect` return no error even when the dial fails. A refused dial leaves a nil connection, and the next call on it panics; the model shows this as the `NilConnection`/`Panic` outcome.
- A malformed bet line still uses up one of the `batchSize` iterations of `GetBatch`. No caller of the batcher is part of this model. A caller that calls `GetBatch` until `Finished` makes ⌊n/k⌋ + 1 calls for n lines and batch size k, so when k divides n the last batch is empty. With `batchSize <= 0`, `GetBatch` scans nothing and never sets `Finished`, so such a loop never ends.
- The single-bet serialiser of `client/communication` writes the opcode `StoreBetMsg`, which its package never declares. It is modelled as `StoreBetBatchMsg`, that is 0.
- The server's `__decode_bet_info` reads five fields and sets the agency to "1". The client serialisers write six fields, agency first. `ServerCommunication.ClientBetMisread` proves the exact shift this causes: the agency lands in the first name, and the number is left unread.
- `server.py` unpacks `recv_msg()` into a message type and a payload, and dispatches on message-type constants and reply senders that `server/common/communication.py` does not define. The dispatch is modelled on an abstract request and reply.
- `_load_winners` never clears the map, so a second finalization that finds every agency finished appends every winning document again.
- Every generated client gets the same `CLI_ID=1`.

## Model

The functions that carry the model have no rows of their own. Their meaning is
stated by the lemmas and methods below:
- `CommSerialize.SerializeBet` and `CommonSerialize.SerializeBet`: the `Serialize*`, `ParseSerializedBet` and `SameAsCommSerializer` rows.
- `CommCommunication.DecodeReply` and `CommonCommunication.DecodeMsg`: the decoding rows of their modules.
- `ServerCommunication.RecvChunk`, `ReadField` and `ReadMsg`: the `ServerCommunication` lemmas.
- `Batcher.Split`, `ParseLine` and `NextBatch`: the `Batcher` lemmas, with `Batcher.Batcher.GetBatch` proved equal to `NextBatch`.
- `Server.LoadedFrom` and `Server.Handle`: the `Server` lemmas, with `LoadWinners` and `HandleRequest` proved equal to them.
- `GenerateCompose.Generated` and `InsertBlankLines`: the `Generated*` rows, `InsertAtOccurrence`, `InsertWithoutOccurrence` and `RemoveAfterInsert`, with `Compose.Generate` proved equal to `Generated`.

| member | source | states |
|---|---|---|
| Wire.LengthByte | client/communication/serialize.go:32 | the length byte equals the length below 256 and is congruent to it modulo 256 otherwise: it wraps, no error |
| Wire.Field | client/communication/serialize.go:31-36 | a field is written as 1 + len bytes: the length byte, then exactly the field's bytes |
| Wire.LayoutLength | client/communication/serialize.go:20-25 | a run of fields takes one length byte per field plus the fields' bytes |
| Wire.LayoutSplit | client/communication/serialize.go:20-25 | the fields written one after another split into the first k fields' bytes followed by the others' |
| Socket.RecvBytes | client/communication/communication.go:150-157 | `recv(size)` always returns exactly `size` bytes |
| Socket.RecvBytesZeroFilled | client/communication/communication.go:150-157 | byte i of `recv(size)` is the peer's next byte while there is one and zero after that |
| Socket.RecvByteAt | client/communication/communication.go:160-162 | `recvByte` is the next byte, or 0 once the peer is done |
| Socket.RecvField | client/communication/communication.go:138-139 | reading a length byte and that many bytes never moves the cursor past the input, and moves it unless the input is exhausted, in which case it yields zeros |
| Socket.RecvFieldAfterField | client/communication/serialize.go:31-36 | a field of at most 255 bytes, read where it was written, comes back exactly and the read stops right after it |
| Socket.OversizedFieldReadsEmpty | client/communication/serialize.go:32 | a 256-byte field is announced as length 0 and read back as the empty field |
| Socket.RecvFields | client/communication/communication.go:137-142 | reading k fields yields k fields and keeps the cursor within the input |
| Socket.RecvFieldsAfterLayout | client/communication/communication.go:137-142 | reading as many fields as were written, each at most 255 bytes, returns them all in wire order and stops right after the last |
| Socket.Connection.Recv | client/communication/communication.go:150-157 | the method returns `RecvBytes` and advances the cursor by what `io.ReadFull` could read |
| Socket.Connection.RecvByte | client/communication/communication.go:160-162 | the method returns the next byte or 0 and advances by at most one |
| Socket.Connection.Write | client/common/communication.go:32 | the count and error of `conn.Write` are the network's, and exactly the first `n` bytes go out |
| Socket.Connection.Close | client/communication/communication.go:119-121 | the connection is closed |
| CommMessage.Opcode | client/communication/message.go:6-13 | the six message kinds have opcodes 0..5 in declaration order, none of them `InvalidMsg` (255) |
| CommMessage.KindOf | client/communication/message.go:6-13 | an opcode names a kind exactly when it is at most 5, and that kind's opcode is the opcode |
| CommMessage.OpcodesAreACode | client/communication/message.go:6-13 | distinct kinds have distinct opcodes, each opcode is read back as its kind, and 255 names no kind |
| CommMessage.BetFields | client/communication/message.go:24-31 | a bet has six string fields, agency first and number last |
| CommMessage.FieldsDetermineBet | client/communication/message.go:24-31 | two bets with the same six fields are the same bet |
| CommSerialize.SerializeFieldAppends | client/communication/serialize.go:31-36 | `serializeField` keeps the buffer as a prefix, then appends the length byte and exactly the field's bytes, 1 + len in all |
| CommSerialize.SerializeBetFields | client/communication/serialize.go:14-28 | the bet is written as the opcode `StoreBetMsg`, then agency, name, last name, document, date of birth and number, each as a field |
| CommSerialize.SerializeBetLayout | client/communication/serialize.go:14-28 | the same, as the opcode followed by the layout of the bet's field list |
| CommSerialize.SerializeBetLength | client/communication/serialize.go:14-28 | the output is 7 bytes longer than the six fields together |
| CommSerialize.ParseSerializedBet | client/communication/serialize.go:14-36 | when every field is at most 255 bytes, reading an opcode and six fields gives back `StoreBetMsg` and the same bet, consuming the whole encoding |
| CommSerialize.LongFieldBreaksRoundTrip | client/communication/serialize.go:32 | a 256-byte name is announced with length byte 0 and read back as the empty name, so the bet does not round-trip |
| CommSerialize.SerializeMessage | client/communication/serialize.go:4-11 | a bet message serialises as its bet, any other type as nothing, and a bet type without a bet panics |
| CommonMessage.StoreBetMessage | client/common/message.go:15-20 | the message has type `StoreBet` and carries the bet unchanged |
| CommonMessage.StoreBetMessageInjective | client/common/message.go:15-20 | distinct bets give distinct store messages |
| CommonSerialize.SameAsCommSerializer | client/common/serialize.go:12-47 | the unrolled serialiser writes exactly the bytes of the `serializeField`-based one: opcode 0, the same field order, the same wrapped length bytes |
| CommonSerialize.ParseSerializedBet | client/common/serialize.go:12-47 | when every field is at most 255 bytes, opcode 0 and the six fields are read back exactly, consuming the whole encoding |
| CommonSerialize.SerializeMessage | client/common/serialize.go:3-10 | a `StoreBet` message serialises as its bet, any other type as nothing, and a `StoreBet` without a bet panics |
| CommonSerialize.StoreBetMessageSerializesAsBet | client/common/serialize.go:3-10 | serialising `StoreBetMessage(b)` gives exactly the bet's encoding, and a `ConfirmedBet` message gives nothing |
| CommonCommunication.SendVerdict | client/common/communication.go:30-40 | `send` succeeds exactly when the write reported no error and at least the message's length, and reports a short write with both counts |
| CommonCommunication.SendSucceedsIffAllWritten | client/common/communication.go:30-40 | given `n <= len(p)`, `send` succeeds exactly when every byte went out without an error |
| CommonCommunication.DecodeConfirmedBet | client/common/communication.go:69-82 | reading a confirmation never fails and stays within the input |
| CommonCommunication.DecodeMsg | client/common/communication.go:59-67 | there is a confirmation exactly when there is no error, and the only error is an invalid type other than `ConfirmedBet` |
| CommonCommunication.DecodeEncodedConfirmedBet | client/common/communication.go:59-82 | a confirmation with fields of at most 255 bytes is read back exactly, consuming 3 + len(document) + len(number) bytes |
| CommonCommunication.OtherOpcodesRejected | client/common/communication.go:59-67 | any other first byte is rejected after reading only that byte, and a silent peer is read as opcode 0 and rejected |
| CommonCommunication.TruncatedConfirmationIsEmpty | client/common/communication.go:69-82 | a confirmation cut off after its opcode reads as an empty document and number, with no error |
| CommonCommunication.CommunicationHandler.Connect | client/common/communication.go:17-28 | `connect` never reports an error, and a refused dial leaves no connection |
| CommonCommunication.CommunicationHandler.Send | client/common/communication.go:30-40 | `send` writes the serialised message and returns `SendVerdict`; no serialisation or no connection panics |
| CommonCommunication.CommunicationHandler.Disconnect | client/common/communication.go:42-44 | the connection is closed, or a nil connection panics |
| CommonCommunication.CommunicationHandler.RecvMsg | client/common/communication.go:59-67 | the method returns and consumes exactly what `DecodeMsg` says |
| CommonCommunication.CommunicationHandler.RecvConfirmedBetMsg | client/common/communication.go:69-82 | the method reads the document, then the number, as `DecodeConfirmedBet` says |
| CommCommunication.ReplyType | client/communication/communication.go:125-147 | `RecvMsg` returns `InvalidMsg` exactly for an invalid reply, `BatchConfirmationMsg` exactly for a confirmation, `NoWinnersYetMsg` exactly for "no winners yet" and `WinnersMsg` exactly for a winners list |
| CommCommunication.ReplyTypeIsOpcode | client/communication/communication.go:125-147 | the message type `RecvMsg` returns is the opcode byte it read, for an accepted reply and a rejected one alike |
| CommCommunication.DecodeReply | client/communication/communication.go:125-147 | decoding a reply never moves the cursor backwards or past the input |
| CommCommunication.DecodeEncodedReply | client/communication/communication.go:125-147 | a confirmation consumes one status byte, returned unchecked; "no winners yet" consumes nothing more; a winners list returns its k documents in wire order; any other opcode consumes only itself and is invalid |
| CommCommunication.SilentPeerIsInvalid | client/communication/communication.go:125-147 | a peer that closes without answering is read as opcode 0, an invalid message type |
| CommCommunication.TruncatedWinnersIsEmpty | client/communication/communication.go:133-143 | a winners reply cut after its opcode is an empty list with no error |
| CommCommunication.TruncatedWinnersKeepsCount | client/communication/communication.go:133-143 | a winners reply cut after its count still yields as many documents as announced, all empty |
| CommCommunication.AllEmptyAtEnd | client/communication/communication.go:137-142 | reading fields after the peer is done yields empty fields and does not move the cursor |
| CommCommunication.BatchVerdict | client/communication/communication.go:56-64 | `SendBatch` succeeds exactly when the reply is a confirmation whose status is not `Failure`; a `Failure` status, another opcode or an invalid one is an error |
| CommCommunication.AnyNonFailureStatusAccepted | client/communication/communication.go:56-64 | every status byte other than `Failure` is accepted, not only `Success` |
| CommCommunication.WinnersResult | client/communication/communication.go:106-114 | `GetWinners` returns the opcode and payload uninterpreted, and an error exactly when `RecvMsg` reports one |
| CommCommunication.CommunicationHandler.Connect | client/communication/communication.go:22-33 | `Connect` never reports an error; a refused dial leaves a nil connection, an accepted one a fresh open connection |
| CommCommunication.CommunicationHandler.Disconnect | client/communication/communication.go:119-121 | the connection is closed and nothing else changes; a nil connection left by a refused dial panics |
| CommCommunication.CommunicationHandler.RecvMsg | client/communication/communication.go:125-147 | the method returns the reply and advances the cursor exactly as `DecodeReply` says |
| CommCommunication.CommunicationHandler.RecvDocuments | client/communication/communication.go:137-142 | the loop returns the `count` fields the peer sent, in order, ending where `RecvFields` ends |
| CommCommunication.CommunicationHandler.SendBatch | client/communication/communication.go:37-65 | connect, write, read and judge the reply by `BatchVerdict`; a write error stops it before reading; the connection is closed on every path |
| CommCommunication.CommunicationHandler.SendFinalizationMsg | client/communication/communication.go:69-83 | connect, write and close; only a write error is reported |
| CommCommunication.CommunicationHandler.SendGetWinnersMsg | client/communication/communication.go:87-94 | one write on the current connection; only a write error is reported |
| CommCommunication.CommunicationHandler.GetWinners | client/communication/communication.go:96-115 | connect, send the query, and return `WinnersResult` of the decoded reply; the connection is closed on every path |
| ServerCommunication.RecvChunkReadsNextBytes | server/common/communication.py:67-68 | `recv(n)` returns the peer's next bytes, at most n and no longer pending; it falls short only at the end, and raises only when a reset peer has nothing more |
| ServerCommunication.ReadBetInfo | server/common/communication.py:64-90 | every decoded bet has agency "1", whatever was read |
| ServerCommunication.ReadBetInfoReadsFiveFields | server/common/communication.py:64-90 | `__decode_bet_info` reads exactly five fields in order and builds the bet from them as first name, last name, document, birthdate and number |
| ServerCommunication.ReadFields | server/common/communication.py:67-84 | k fields read without a raise are k fields |
| ServerCommunication.ReadFieldOfField | server/common/communication.py:67-68 | a field of at most 255 bytes is read back and what follows is left pending |
| ServerCommunication.ReadFieldsOfLayout | server/common/communication.py:67-84 | reading k fields of a written layout returns its first k fields in order and leaves the others pending |
| ServerCommunication.DecodeWrittenBet | server/common/communication.py:47-90 | type byte 0 followed by five or more fields of at most 255 bytes decodes to `Bet("1", f0..f4)` and consumes 5 + their lengths after the type byte |
| ServerCommunication.ClientBetMisread | server/common/communication.py:64-90 | the client's six-field bet is read with every field shifted by one, agency "1", and the number left unread |
| ServerCommunication.SilentClientGivesEmptyBet | server/common/communication.py:55-57 | a client that sends nothing is read as type 0 and a bet of empty strings, not as None |
| ServerCommunication.ResetGivesNone | server/common/communication.py:54-62 | a reset before the type byte, or right after it, gives None |
| ServerCommunication.ResetInsideBetGivesNone | server/common/communication.py:61-84 | a reset inside the fields gives None where a clean close gives a short bet |
| ServerCommunication.ResetOnlyAddsNone | server/common/communication.py:54-84 | for every stream, a reset leaves `recv_msg` unchanged or turns its result into None, and the latter only where a clean close returns a bet having read the whole stream |
| ServerCommunication.ReadFieldsReset | server/common/communication.py:67-84 | reading fields never raises on a clean close, and with a reset reads the same unless it raised after the stream ran out |
| ServerCommunication.OtherTypesIgnored | server/common/communication.py:55-57 | any type byte other than 0 gives None after reading only that byte |
| ServerCommunication.ClientSocket.Recv | server/common/communication.py:67-68 | the method returns `RecvChunk` and leaves the rest pending |
| ServerCommunication.ClientSocket.Close | server/common/communication.py:93-94 | the socket is closed |
| ServerCommunication.CommunicationHandler.RecvMsg | server/common/communication.py:47-62 | the method returns and consumes exactly what `ReadMsg` says |
| ServerCommunication.CommunicationHandler.DecodeBetInfo | server/common/communication.py:64-90 | the method reads five fields as `ReadBetInfo` says, stopping at a raise |
| ServerCommunication.CommunicationHandler.RecvField | server/common/communication.py:67-68 | one length byte, then that many bytes, as `ReadField` says |
| ServerCommunication.CommunicationHandler.CloseCurrentConnection | server/common/communication.py:93-94 | the client socket is closed |
| Batcher.SplitCount | client/common/batcher.go:48 | `strings.Split` on a comma yields one more piece than there are commas |
| Batcher.SplitJoin | client/common/batcher.go:48 | joining the pieces with commas gives back the line |
| Batcher.SplitNoSeparator | client/common/batcher.go:48 | no piece holds a comma |
| Batcher.ParseLineWellFormed | client/common/batcher.go:48-65 | a line is a bet exactly when it has at least four commas; the bet's agency is the batcher's, and no field holds a comma |
| Batcher.ParseLines | client/common/batcher.go:47-66 | there are no more bets than lines |
| Batcher.ParseLinesAppend | client/common/batcher.go:66 | bets keep the order of their lines across any cut of the file |
| Batcher.ParseLinesExtend | client/common/batcher.go:47-66 | one more line adds its bet, built from `fields[0..4]` with the batcher's agency, when it has at least five fields, and nothing otherwise |
| Batcher.NextBatchBounds | client/common/batcher.go:42 | a batch holds at most `batchSize` bets, from at most `batchSize` lines that follow the scanner's position, in order |
| Batcher.FinishedExactlyAtEnd | client/common/batcher.go:43-46 | `Finished` is set exactly when the file ends within the call; once it has, every call returns nothing and keeps it set |
| Batcher.MalformedLineUsesASlot | client/common/batcher.go:49-52 | with batch size 1, a malformed line yields an empty batch with `Finished` still false |
| Batcher.BatchesDeliverEveryBet | client/common/batcher.go:40-69 | all batches up to `Finished` together are exactly the bets of the well-formed lines, in file order |
| Batcher.BatchCount | client/common/batcher.go:43-46 | a caller that calls `GetBatch` until `Finished` makes c calls with (c-1)k <= n < ck for n lines and batch size k |
| Batcher.NonPositiveBatchNeverFinishes | client/common/batcher.go:42 | with batch size 0 or less, `GetBatch` returns nothing, scans nothing and leaves `Finished` as it was |
| Batcher.NextBatchOfScan | client/common/batcher.go:42-46 | the loop stops at the file's end with the flag set, after `batchSize` lines with it clear, or at once with it untouched when `batchSize <= 0` |
| Batcher.Batcher.constructor | client/common/batcher.go:22-37 | a new batcher starts at the first line, not finished |
| Batcher.Batcher.GetBatch | client/common/batcher.go:40-69 | the returned bets, the scanner position and `Finished` are exactly `NextBatch` of the old position and flag |
| Server.LoadedEntries | server/common/server.py:69-73 | after loading, each agency's list is its old list followed by the documents of its winning bets in load order; the entry exists exactly when it did or a bet of it won |
| Server.RecordEntry | server/common/server.py:73 | a winning bet appends its document to its agency's list, creating it on first use, and touches no other agency |
| Server.LosingBetsChangeNothing | server/common/server.py:71-73 | when no loaded bet won, the map is unchanged |
| Server.LoadTwiceDuplicates | server/common/server.py:69-73 | loading the same bets twice lists every winning document twice |
| Server.FinishingKeepsAllFinished | server/common/server.py:59-67 | adding an agency never undoes "all finished", and adding one twice is adding it once |
| Server.WinnersQueryReply | server/common/server.py:40-46 | a winners query is answered "no winners yet" exactly until every agency finished, then with the agency's list or `[]`, and changes no state |
| Server.BatchReplies | server/common/server.py:27-54 | a batch is answered with success, a reception error with failure, an unknown type or other failure with nothing; none changes the state |
| Server.HandleKeepsAllFinished | server/common/server.py:33-38 | once every agency finished, it stays so whatever request comes |
| Server.RepeatedFinalizationDuplicates | server/common/server.py:33-38 | a repeated finalization once all finished appends every winning document a second time |
| Server.Server.constructor | server/common/server.py:8-12 | no agency finished, no winners |
| Server.Server.AllAgenciesFinished | server/common/server.py:59-64 | true exactly when every id in 1..number_of_clients has finished; vacuously true with no clients |
| Server.Server.SetAgencyAsFinished | server/common/server.py:66-67 | the set gains the agency and nothing else |
| Server.Server.LoadWinners | server/common/server.py:69-73 | the map becomes `LoadedFrom` of the old map and the loaded bets |
| Server.Server.HandleRequest | server/common/server.py:22-57 | reply and new state are `Handle` of the request, and the client connection is closed afterwards whatever happened |
| GenerateCompose.NatToStringInjective | generate_compose.py:28 | distinct numbers have distinct decimal numerals |
| GenerateCompose.ClientNameProperties | generate_compose.py:28-29 | `client{i}` starts with "client", is never "server", and distinct i give distinct names |
| GenerateCompose.AddNumberedKeys | generate_compose.py:27-28 | adding numbered entries keeps every key and adds exactly `name(1)..name(n)` |
| GenerateCompose.AddNumberedEntry | generate_compose.py:27-40 | with distinct names, `name(i)` holds `entry(i)` |
| GenerateCompose.AddNumberedOther | generate_compose.py:27-40 | a key that is none of the added names keeps its entry |
| GenerateCompose.GeneratedClients | generate_compose.py:17-40 | after the run, the names starting with "client" are exactly `client1..clientN`, none when N <= 0 |
| GenerateCompose.GeneratedClientEntry | generate_compose.py:27-40 | `client{i}` holds client i's entry, with environment `["CLI_ID=1"]` for every i |
| GenerateCompose.GeneratedOthers | generate_compose.py:8-40 | the server gets the single config bind and loses its environment; every other non-client service is unchanged |
| GenerateCompose.InsertAtOccurrence | generate_compose.py:46 | wherever "  client" occurs, a newline goes in front of it and the text before and after is edited as if on its own, because the word cannot overlap itself |
| GenerateCompose.InsertWithoutOccurrence | generate_compose.py:46 | text in which "  client" does not occur is left unchanged |
| GenerateCompose.RemoveAfterInsert | generate_compose.py:46 | inserting a newline before every "  client" loses nothing: taking them out again gives back the dumped text |
| GenerateCompose.Compose.Generate | generate_compose.py:8-40 | the rewrite succeeds exactly when the server and its environment exist and then yields `Generated`; on a `KeyError` the services are as the failing line left them |
| GenerateCompose.Compose.RewriteServer | generate_compose.py:8-14 | the server's volumes are replaced, then its environment deleted, failing when either key is missing |
| GenerateCompose.Compose.ClientsToDelete | generate_compose.py:17-20 | the collected names are exactly the services starting with "client" |
| GenerateCompose.Compose.DeleteServices | generate_compose.py:23-24 | exactly the collected services are removed |
| GenerateCompose.Compose.AddClients | generate_compose.py:27-40 | `client1..clientN` are added with their entries, in order |

## Left out

- Sockets, the network and processes are not modelled as such. The bytes a peer sends, the outcome of a dial and the count and error of a write are parameters; `accept` with its timeout, SIGTERM handling, `__exit_gracefully` and `sys.exit` are left out.
- `client/common/client.go` and `server/common/session_handler.py` are not part of this model: they are concurrency and I/O around the core.
- Logging is left out.
- CommCommunication.CommunicationHandler.Disconnect, CommonCommunication.CommunicationHandler.Disconnect and Socket.Connection.Close do not return the error `Close()` returns, because no caller in the source reads it.
- `serializeBets`, `serializeFinalizationMsg` and `serializeGetWinnersMsg` are not modelled; their output is a parameter of `SendBatch`, `SendFinalizationMsg` and `GetWinners`.
- `store_bets`, `load_bets`, `has_won` and `Bet` live in `common.utils`, which is not part of this model. A batch is only answered, not stored. `load_bets` is a parameter. Each loaded bet carries the verdict of `has_won`.
- The reply senders and message-type constants that `server.py` imports are not modelled; requests and replies are abstract datatypes.
- An exception raised midway through handling a request is modelled only before any state changes (`OtherFailure`).
- ServerCommunication.RecvChunk: a stream socket may return fewer bytes than are pending; the model assumes it hands over everything it has at once.
- Python's UTF-8 decoding of the fields is left out, and a field is kept as bytes. The `UnicodeDecodeError` it can raise is not modelled.
- `NewBatcher`'s failure to open the file and `Stop` are left out; the file is the sequence of lines its scanner yields.
- `yaml.safe_load`, `yaml.dump` and the file I/O of `generate_compose.py` are left out, and so is the order of dictionary keys. A document without a `services` key is not modelled. The blank-line edit is modelled on a string.
