# Select_Server, verified

A Dafny model of the omok (five in a row) chat server and of the client parts
that mirror it. It covers four connected layers and proves what holds of each
in every reachable state:

- **Game.** The board, the incremental win test around the last stone, draws
  and forfeits. The local test is proved equal to the whole-board statement
  "somewhere there are five in a row".
- **Lobby.** Users, rooms, readiness, games, clocks and results. One invariant
  over any sequence of calls makes every `StateMismatch` answer and every
  `throw` unreachable, and conserves games: each one started is either being
  played in one room or has exactly one result.
- **Network.** Packet framing under any fragmentation, partial sends, the
  bounded event queue with a slot reserved for each connection, and the event
  trace of each session; delivery from end to end in both directions, and that
  everything queued does arrive while the sockets go on taking bytes.
- **Server.** The packet processor that ties the layers together: its draining
  loop terminates although handlers push events, every session is accounted for
  exactly once, and whatever the server builds can be encoded and is decoded to
  the same value. The server refines the lobby; what each packet makes it send
  is given packet by packet, and in every reachable state every connected member of
  a room has been told the room as it is, and every player all its results. The
  client's board is a replica that follows the server's.

How it is built. For each stateful class of the program there is a Dafny class
with its fields, updated in place (`OmokGame`, `Room`, `UserManager`,
`RoomManager`, `TcpNetwork`, `TcpClient`, `ClientGameView`, `PacketProcessor`,
`Writer`, `Reader`). Each has a `Model()`, its state as a value, and each of its
methods is proved equal to a step function on that value (`OmokRules`,
`RoomRules`, `UserRules`, `LobbyRules`, `NetRules`, `ClientNetRules`, `Replica`,
`ServerRules`). The theorems are about the step functions, over all inputs and
all runs; one of them (`ServerReplica`) goes through all four layers, from the
server's board to the client's. Ghost logs record what was emitted, received, queued and sent, the
results ever taken, and when each game was started.

What comes from outside is a parameter: the clock, the answers of `recv`,
`send`, `accept` and `select`, the order in which a hash table is walked, and
the operating system's check that a text is UTF-8. Sizes are unbounded
integers where the program's checks keep them in range; the 32-bit IDs, the
16-bit header fields and the casts to bytes are explicit. Where the program
throws, a step function returns `Threw`.

Results about the program worth knowing:

- The encoder of `RoomActionResponse` sends any combination of result and room,
  the decoder accepts only a success with a room or a failure without one.
  `RoomActionRoundTrip` states exactly when the round trip holds, with a
  response that fails it; `RoomResponsesArePaired` shows that the server builds
  only responses that do.
- A notification that a room waits can overtake the result of the game that has just
  ended there: `ReadyOvertakes` and `FlushVerdict` state exactly when, `OnlyReadyOvertakes`
  that no other step of the loop does it, and `ResignThenReady` that two requests of a
  guest are enough in any running game.
- An accepted chat message is answered twice with `CHAT_RES`
  (ChatServerFolder/LogicLib/PacketProcessorChat.cpp:75-83); the model does the
  same.
- `PlaceStone` looks twice whether the turn is over
  (ChatServerFolder/LogicLib/RoomManager.cpp:339-343) and `Update` checks logins
  twice (ChatServerFolder/LogicLib/PacketProcessor.cpp:56-58); so does the model.

## Model

| member | source | states |
|---|---|---|
| OmokGames.OmokGame.Reset | ChatServerFolder/LogicLib/OmokGame.cpp:5-15 | the loops leave an empty board and a game that has not started |
| OmokGames.OmokGame.Start | ChatServerFolder/LogicLib/OmokGame.cpp:17-23 | an empty board with Black to move |
| OmokGames.OmokGame.TryPlaceStone | ChatServerFolder/LogicLib/OmokGame.cpp:25-66 | each refusal in its order leaves the game alone; an accepted stone updates array, count, status and turn as the rules say |
| OmokGames.OmokGame.Forfeit | ChatServerFolder/LogicLib/OmokGame.cpp:68-80 | a running game goes to the loser's opponent; nothing else is touched |
| OmokGames.OmokGame.CountDirection | ChatServerFolder/LogicLib/OmokGame.cpp:82-104 | the walk counts the unbroken row of the colour that starts next to the cell |
| OmokGames.OmokGame.HasWinningLine | ChatServerFolder/LogicLib/OmokGame.cpp:106-123 | true exactly when the stone completes a row of at least five along one of the four axes |
| OmokRules.RunLengthIsTheRow | ChatServerFolder/LogicLib/OmokGame.cpp:82-104 | the count of a walk is the length of the row: that many cells of the colour follow and the next is not one, for any length |
| OmokRules.LocalTestIsGlobal | ChatServerFolder/LogicLib/OmokGame.cpp:106-123 | on a board without a five, the test around a new stone succeeds exactly when the new board has a five anywhere, of either colour |
| OmokRules.FullIsCellCount | ChatServerFolder/LogicLib/OmokGame.cpp:54-61 | the board is full exactly when the number of its stones is the number of cells |
| OmokRules.PlaceStoneVerdict | ChatServerFolder/LogicLib/OmokGame.cpp:25-66 | an accepted stone keeps the invariant of the game and ends it as won exactly when the board now has a five of its colour, as drawn exactly when it is full without one; a refused stone changes nothing |
| OmokRules.EveryRunKeepsGameInv | ChatServerFolder/LogicLib/OmokGame.cpp:5-80 | after any calls: the count is the number of stones and at most 225, Black leads by 0 or 1, the turn follows from that lead, and no five is on the board while the game runs |
| Rooms.Room.constructor | ChatServerFolder/LogicLib/Room.cpp:6-17 | a waiting room whose only member is its host |
| Rooms.Room.GetPlayerStone | ChatServerFolder/LogicLib/Room.cpp:28-40 | the colour of a session, none for session 0 and strangers |
| Rooms.Room.IsTurnExpired | ChatServerFolder/LogicLib/Room.cpp:42-47 | a running game at or after its deadline |
| Rooms.Room.RemoveMember | ChatServerFolder/LogicLib/Room.cpp:49-77 | the loop removes the first occurrence; game, colours, marks and clock are reset and a leaving host hands over |
| Rooms.Room.AddMember | ChatServerFolder/LogicLib/Room.cpp:78-91 | joins a waiting room with a free seat and clears the ready marks, else changes nothing |
| Rooms.Room.SetReady | ChatServerFolder/LogicLib/Room.cpp:92-98 | sets or clears one mark |
| Rooms.Room.Forfeit | ChatServerFolder/LogicLib/Room.cpp:100-103 | only the game changes |
| Rooms.Room.FinishGame | ChatServerFolder/LogicLib/Room.cpp:104-109 | back to waiting without marks and clock; the final board stays |
| Rooms.Room.StartGame | ChatServerFolder/LogicLib/Room.cpp:110-134 | host black, the loop finds the first guest for white, new board, marks consumed, clock set |
| Rooms.Room.PlaceStone | ChatServerFolder/LogicLib/Room.cpp:135-154 | only players of a running game place stones; the clock restarts only when the game goes on |
| RoomRules.RemoveMemberInv | ChatServerFolder/LogicLib/Room.cpp:49-77 | removing a member loses exactly that member and leaves a sound waiting room without game, colours and marks, the host replaced only if it left, or an empty room |
| RoomRules.StartGameInv | ChatServerFolder/LogicLib/Room.cpp:110-134 | starting in a full waiting room gives a sound running room: host black, the other member white, no marks, nonzero game ID |
| RoomRules.PlaceStoneSpec | ChatServerFolder/LogicLib/Room.cpp:135-154 | a member's stone in a sound room is never of the wrong kind; refused it changes nothing, accepted it touches game and clock only and leaves a sound running room or a final result |
| RoomRules.EndByForfeit | ChatServerFolder/LogicLib/RoomManager.cpp:109-118 | giving up a running game cannot fail or throw: one sound record, won by the opponent, on an unchanged board |
| RoomRules.ExpireRoomSpec | ChatServerFolder/LogicLib/RoomManager.cpp:456-469 | expiry never throws; it ends exactly the games past their deadline, lost by the side to move, with one record and the board unchanged |
| RoomRules.FinishAfterMove | ChatServerFolder/LogicLib/RoomManager.cpp:387-394 | a final result reached by a move is recorded once with its reason and leaves a sound waiting room |
| UserManagers.UserManager.Login | ChatServerFolder/LogicLib/UserManager.cpp:4-31 | the refusals in their order, else both maps gain the user |
| UserManagers.UserManager.Find | ChatServerFolder/LogicLib/UserManager.cpp:33-43 | the user of a session, if there is one |
| UserManagers.UserManager.Remove | ChatServerFolder/LogicLib/UserManager.cpp:45-56 | both maps lose the user |
| UserManagers.UserManager.IsValidNickname | ChatServerFolder/LogicLib/UserManager.cpp:72-91 | the loop accepts exactly 1 to 16 letters, digits and underscores |
| UserManagers.UserManager.EnterRoom | ChatServerFolder/LogicLib/User.h:33-37 | the user is in the room |
| UserManagers.UserManager.ReturnToLobby | ChatServerFolder/LogicLib/User.h:39-43 | the user is in the lobby |
| UserRules.LoginVerdict | ChatServerFolder/LogicLib/UserManager.cpp:7-29 | a login succeeds exactly when the session is new, the name valid and no user has it, and each refusal has its own reason; then the user is in the lobby and nobody else is touched |
| UserRules.RemoveKeepsUsersInv | ChatServerFolder/LogicLib/UserManager.cpp:45-56 | the two maps stay inverse to each other when a user is removed |
| UserRules.RemoveFreesTheNickname | ChatServerFolder/LogicLib/UserManager.cpp:54-55 | as soon as a user is removed, another session can log in under the name |
| LobbyInvariant.UserIsInItsRoom | ChatServerFolder/LogicLib/RoomManager.cpp:87-104 | in a sound lobby a user in the lobby is a member of no room, and any other is a member of the sound room it names |
| LobbyInvariant.ExpireKeepsRunInv | ChatServerFolder/LogicLib/RoomManager.cpp:101-107 | expiring a room keeps the whole invariant; exactly a turn that is over adds a record |
| RoomManagers.RoomManager.constructor | ChatServerFolder/LogicLib/RoomManager.cpp:7-24 | an empty lobby with the accepted configuration |
| RoomManagers.RoomManager.CreateRoom | ChatServerFolder/LogicLib/RoomManager.cpp:30-73 | every refusal in its order; else the new room with the next ID and its creator seated |
| RoomManagers.RoomManager.LeaveRoom | ChatServerFolder/LogicLib/RoomManager.cpp:75-129 | expiry first, then the loss of the leaver, then removal, and an empty room is erased |
| RoomManagers.RoomManager.Find | ChatServerFolder/LogicLib/RoomManager.cpp:131-139 | the room with an ID, if there is one |
| RoomManagers.RoomManager.EnterRoom | ChatServerFolder/LogicLib/RoomManager.cpp:140-178 | every refusal in its order; else the member is added and the user seated |
| RoomManagers.RoomManager.GetRoomsAfter | ChatServerFolder/LogicLib/RoomManager.cpp:179-216 | walking the table in any order, sorting and cutting yields the first 20 rooms after the ID in increasing order, and whether there are more |
| RoomManagers.RoomManager.SetReady | ChatServerFolder/LogicLib/RoomManager.cpp:217-242 | every refusal in its order; else one mark changes |
| RoomManagers.RoomManager.UpdateTimeouts | ChatServerFolder/LogicLib/RoomManager.cpp:246-252 | every room is expired once, in some order |
| RoomManagers.RoomManager.TryPopFinishedGame | ChatServerFolder/LogicLib/RoomManager.cpp:254-263 | the oldest result leaves the queue |
| RoomManagers.RoomManager.StartGame | ChatServerFolder/LogicLib/RoomManager.cpp:265-312 | every refusal in its order, the loop over the marks included; else the room plays under the next game ID |
| RoomManagers.RoomManager.PlaceStone | ChatServerFolder/LogicLib/RoomManager.cpp:314-397 | request checks, both expiry checks, then the stone, its report and, when final, the result |
| RoomManagers.RoomManager.IsValidTitle | ChatServerFolder/LogicLib/RoomManager.cpp:399-428 | the loop accepts exactly titles of 1 to 48 bytes without control bytes, not only spaces, that are UTF-8 |
| RoomManagers.RoomManager.FinishRoom | ChatServerFolder/LogicLib/RoomManager.cpp:429-454 | a running room with a final result gives one record and waits; without a final result it throws |
| RoomManagers.RoomManager.ExpireRoom | ChatServerFolder/LogicLib/RoomManager.cpp:456-469 | the timeout of one room, reported as true exactly when the turn was over |
| RoomManagers.RoomManager.Resign | ChatServerFolder/LogicLib/RoomManager.cpp:471-528 | request checks, expiry, then the loss of the player with one result |
| LobbyCalls.CreateRoomKeepsRunInv | ChatServerFolder/LogicLib/RoomManager.cpp:57-72 | the invariant is kept, no mismatch and no throw; success adds exactly one waiting room, with a larger ID than any before, its title, and its creator as only member and host |
| LobbyCalls.EnterRoomKeepsRunInv | ChatServerFolder/LogicLib/RoomManager.cpp:153-177 | the invariant is kept, no mismatch; success appends the user to a waiting room, keeps the host, clears every ready mark and changes nothing else |
| LobbyCalls.LeaveRoomKeepsRunInv | ChatServerFolder/LogicLib/RoomManager.cpp:75-129 | the invariant is kept, no mismatch, no throw; it succeeds exactly for users in a room, whose running game ends with exactly one record |
| LobbyCalls.SetReadyKeepsRunInv | ChatServerFolder/LogicLib/RoomManager.cpp:224-241 | the invariant is kept, no mismatch; success sets the mark of a guest of a waiting room as asked and leaves every other mark |
| LobbyCalls.StartGameKeepsRunInv | ChatServerFolder/LogicLib/RoomManager.cpp:282-311 | the invariant is kept, no mismatch; success seats host and guest under a fresh game ID with every guest ready before |
| LobbyCalls.PlaceStoneKeepsRunInv | ChatServerFolder/LogicLib/RoomManager.cpp:336-396 | the invariant is kept, no mismatch, no throw; success is one legal stone of the side to move, refusal changes nothing, a turn that is over ends the game instead |
| LobbyCalls.ResignKeepsRunInv | ChatServerFolder/LogicLib/RoomManager.cpp:499-527 | the invariant is kept, no mismatch, no throw; exactly one record for a resignation, or for the timeout that came first |
| LobbyCalls.UpdateTimeoutsKeepsRunInv | ChatServerFolder/LogicLib/RoomManager.cpp:246-252 | the invariant is kept, no throw; no room met by the sweep is left past its deadline, and all others are as they were |
| LobbyVerdicts.CreateVerdict | ChatServerFolder/LogicLib/RoomManager.cpp:34-55 | creating succeeds exactly for a user in the lobby with a valid title while rooms and IDs are left |
| LobbyVerdicts.EnterVerdict | ChatServerFolder/LogicLib/RoomManager.cpp:142-172 | entering succeeds exactly for a user in the lobby and a waiting room with a free seat |
| LobbyVerdicts.ReadyVerdict | ChatServerFolder/LogicLib/RoomManager.cpp:219-238 | getting ready succeeds exactly for a guest of a waiting room |
| LobbyVerdicts.StartVerdict | ChatServerFolder/LogicLib/RoomManager.cpp:267-303 | starting succeeds exactly for the host of a full waiting room whose guest is ready, while game IDs are left |
| LobbyVerdicts.MoveVerdict | ChatServerFolder/LogicLib/RoomManager.cpp:314-371 | a move succeeds exactly when the named game runs in the user's room, its turn is not over, it is the user's turn and the cell is on the board and free |
| LobbyVerdicts.ResignVerdict | ChatServerFolder/LogicLib/RoomManager.cpp:471-521 | resigning succeeds exactly when the named game runs in the user's room and its turn is not over |
| LobbyVerdicts.CreateRefusals | ChatServerFolder/LogicLib/RoomManager.cpp:34-55 | each refusal of a new room, exactly when: not logged in, in a room already, bad title, room limit, IDs used up |
| LobbyVerdicts.EnterRefusals | ChatServerFolder/LogicLib/RoomManager.cpp:142-172 | each refusal of an entry, exactly when: not logged in, in a room already, no such room, game in progress, room full |
| LobbyVerdicts.LeaveRefusals | ChatServerFolder/LogicLib/RoomManager.cpp:83-104 | leaving succeeds exactly for users in a room, and is refused to strangers and users in the lobby, each with its reason |
| LobbyVerdicts.ReadyRefusals | ChatServerFolder/LogicLib/RoomManager.cpp:219-238 | each refusal of a ready mark, exactly when: not logged in, in no room, game in progress, host |
| LobbyVerdicts.StartRefusals | ChatServerFolder/LogicLib/RoomManager.cpp:267-303 | each refusal of a start, exactly when: not logged in, in no room, not host, started already, not enough players, a guest not ready, IDs used up |
| LobbyVerdicts.GameRequestRefusals | ChatServerFolder/LogicLib/RoomManager.cpp:314-337 | why a request about a game is refused before the game is looked at, exactly: not logged in, in no room, in another room, another game |
| LobbyVerdicts.MoveRefusals | ChatServerFolder/LogicLib/RoomManager.cpp:339-371 | the answer to every move: while the named game runs in time, OutOfBounds exactly for a cell off the board, NotYourTurn exactly for a cell on it out of turn, Occupied exactly for a taken cell in turn; GameNotRunning exactly when it does not |
| LobbyVerdicts.ResignRefusals | ChatServerFolder/LogicLib/RoomManager.cpp:499-521 | the answer to every resignation: success while the named game runs in time, GameNotRunning when it does not |
| LobbyRuns.EveryRunKeepsRunInv | ChatServerFolder/LogicLib/RoomManager.cpp:30-528 | after any sequence of calls the tables agree, games are conserved and clocks bounded, and no next call throws or answers StateMismatch |
| LobbyRuns.GamesAreConserved | ChatServerFolder/LogicLib/RoomManager.cpp:302-311 | every game ID ever given out is played in exactly one room or recorded exactly once, never both |
| LobbyRuns.RecordsArePoppedInOrder | ChatServerFolder/LogicLib/RoomManager.cpp:451-453 | results come out in the order they were pushed, none lost, repeated or changed |
| LobbyRuns.NoGameOutlivesItsTurns | ChatServerFolder/LogicLib/Room.cpp:133-151 | no game survives a sweep made at or after its start plus 225 turn times |
| LobbyRuns.TimeoutTakesPrecedence | ChatServerFolder/LogicLib/RoomManager.cpp:106-118 | once the turn is over, leaving, disconnecting, moving and resigning all record the same single timeout, lost by the side to move, and moves and resignations leave the board alone |
| LobbyRuns.SweepRecords | ChatServerFolder/LogicLib/RoomManager.cpp:246-252 | a sweep records the timeout of every overdue game it meets and nothing else; all other rooms are as they were |
| Replica.ReplicaStep | ChatServerFolder/LogicLib/PacketProcessorGame.cpp:175-187 | the notification of an accepted move is valid, the client applies it, and view and server agree again, also at the end of a game |
| Replica.OnlyMovesMove | ChatServerFolder/LogicLib/RoomManager.cpp:217-312 | no call but a move changes the board or the deadline of a running game |
| Replica.ViewFollowsGame | ChatClient/ClientGameView.h:60-82 | through any sequence of calls, while the game runs, every notification is applied and the client's board, turn, state and count equal the server's |
| Replica.BegunViewAgrees | ChatClient/ClientGameView.h:50-58 | the view begun for a game just started agrees with it |
| ClientGameViews.ClientGameView.Reset | ChatClient/ClientGameView.h:35-48 | an empty view of a room; the loops clear the whole board |
| ClientGameViews.ClientGameView.Begin | ChatClient/ClientGameView.h:50-58 | an empty board of the named game with Black to move |
| ClientGameViews.ClientGameView.Apply | ChatClient/ClientGameView.h:62-81 | refuses without change, or places the stone and takes over state, turn and count |
| WireFormat.Writer.U32 | Common/RoomPacketCodec.h:21-27 | the loop appends the four bytes of the value, highest first |
| WireFormat.Writer.Text8 | Common/RoomPacketCodec.h:29-39 | appends length and text, or refuses a text over 255 bytes without writing |
| WireFormat.Writer.Finish | Common/RoomPacketCodec.h:41-48 | hands the body out exactly when it fits a packet |
| WireFormat.Reader.U8 | Common/RoomPacketCodec.h:60-67 | one byte and the rest, or a failure at the end |
| WireFormat.Reader.U32 | Common/RoomPacketCodec.h:69-84 | the loop reads the value its four bytes stand for |
| WireFormat.Reader.Text8 | Common/RoomPacketCodec.h:86-101 | the announced text and the rest, or a failure |
| WireFormat.U32Exact | Common/RoomPacketCodec.h:74-81 | reading yields a value and a rest exactly when the bytes are that value written before that rest |
| WireFormat.Text8Exact | Common/RoomPacketCodec.h:93-98 | the same for length-prefixed texts |
| RoomPacketCodec.EncodeRoomList | Common/RoomPacketCodec.h:227-269 | yields the bytes of a list exactly when the list may be sent: at most 20 rooms, IDs strictly increasing, flags that fit the result |
| RoomPacketCodec.DecodeRoomList | Common/RoomPacketCodec.h:271-329 | the loops return what the decoding function returns on every body, malformed ones included |
| RoomPacketCodec.RoomListExact | Common/RoomPacketCodec.h:227-329 | a body decodes to a list exactly when the list may be sent and encodes to that body: both round trips |
| RoomPacketCodec.RoomListFits | Common/RoomPacketCodec.h:41-47 | every list that may be sent fits one packet |
| RoomPacketCodec.IsValidRoomState | Common/RoomPacketCodec.h:454-503 | the loop with its set of names decides exactly: sizes, marks, distinct names, host present |
| RoomPacketCodec.EncodeRoomState | Common/RoomPacketCodec.h:505-535 | yields the bytes of a state exactly when it is valid |
| RoomPacketCodec.DecodeRoomState | Common/RoomPacketCodec.h:537-583 | the loops return what the decoding function returns on every body, malformed ones included |
| RoomPacketCodec.RoomStateExact | Common/RoomPacketCodec.h:505-583 | a body decodes to a state exactly when the state is valid and encodes to that body |
| RoomPacketCodec.RoomActionRoundTrip | Common/RoomPacketCodec.h:152-184 | a response is read back exactly when success and room ID are paired, with one that is not |
| GamePacketCodec.EncodeGameMove | Common/GamePacketCodec.h:114-142 | yields the bytes of a move exactly when it is valid |
| GamePacketCodec.DecodeGameMove | Common/GamePacketCodec.h:144-177 | returns what the decoding function returns on every body, malformed ones included |
| GamePacketCodec.GameMoveExact | Common/GamePacketCodec.h:66-177 | a body decodes to a move exactly when the move is valid and encodes to that body |
| GamePacketCodec.EncodeGameEnd | Common/GamePacketCodec.h:243-261 | yields the bytes of a result exactly when it is valid |
| GamePacketCodec.DecodeGameEnd | Common/GamePacketCodec.h:263-293 | returns what the decoding function returns on every body, malformed ones included |
| GamePacketCodec.GameEndExact | Common/GamePacketCodec.h:207-293 | a body decodes to a result exactly when the result is valid and encodes to that body |
| RoomListing.WalkListsEveryRoomOnce | ChatClient/ChatClient.cpp:543-549 | asking on after the last ID while there is more terminates, and the pages put together list every room once, in increasing ID order |
| RoomListing.PageIsValid | ChatServerFolder/LogicLib/PacketProcessor.cpp:339-345 | every page of a sound lobby may be sent and fits a packet |
| RoomListing.SortById | ChatServerFolder/LogicLib/RoomManager.cpp:201-206 | sorted by ID and a permutation |
| RoomListing.SortedEntriesAreTheList | ChatServerFolder/LogicLib/RoomManager.cpp:183-213 | entries collected in any order, once for each room after the ID, are the list when sorted |
| PacketUtils.WriteUInt16 | Common/PacketUtils.h:14-22 | writes the two bytes, high first, in place and nothing else |
| PacketUtils.WritePacket | ChatServerFolder/SeverNetLib/TcpNetwork.cpp:592-607 | the buffer holds exactly the frame of the packet |
| Framing.ParseInPieces | ChatServerFolder/SeverNetLib/TcpNetwork.cpp:475-521 | however the stream is cut, what a part has yielded stands and parsing resumes with what it left over |
| Framing.ParseFrames | Common/PacketUtils.h:6-12 | parsing the frames of any packets gives back these packets and no rest |
| Framing.ParseLosesNothing | ChatServerFolder/SeverNetLib/TcpNetwork.cpp:516-520 | packets found and rest are exactly the bytes that arrived, and the rest is shorter than a packet |
| Framing.PartOfFramesParses | ChatServerFolder/SeverNetLib/TcpNetwork.cpp:477-502 | any part of the frames yields a prefix of the packets and is never malformed |
| TcpNetworks.TcpNetwork.Init | ChatServerFolder/SeverNetLib/TcpNetwork.cpp:21-45 | an accepted configuration opens an empty network that goes on counting sessions where it stood; any other leaves a closed one |
| TcpNetworks.TcpNetwork.TryPopEvent | ChatServerFolder/SeverNetLib/TcpNetwork.cpp:253-266 | the oldest event leaves the queue |
| TcpNetworks.TcpNetwork.IsConnected | ChatServerFolder/SeverNetLib/TcpNetwork.cpp:268-279 | the loop finds a client exactly when one has the ID |
| TcpNetworks.TcpNetwork.SendPacket | ChatServerFolder/SeverNetLib/TcpNetwork.cpp:281-292 | queues the packet for the first client with the ID, or fails |
| TcpNetworks.TcpNetwork.Disconnect | ChatServerFolder/SeverNetLib/TcpNetwork.cpp:294-304 | closes the first client with the ID, if any |
| TcpNetworks.TcpNetwork.AcceptClient | ChatServerFolder/SeverNetLib/TcpNetwork.cpp:306-378 | every refusal in its order; else a client with the next ID and its Connected event |
| TcpNetworks.TcpNetwork.ReceiveClient | ChatServerFolder/SeverNetLib/TcpNetwork.cpp:380-427 | buffers what was received within the limit and processes it, or asks for the connection to be closed |
| TcpNetworks.TcpNetwork.SendClient | ChatServerFolder/SeverNetLib/TcpNetwork.cpp:429-469 | exactly the bytes taken leave the send buffer |
| TcpNetworks.TcpNetwork.ProcessRecvBuffer | ChatServerFolder/SeverNetLib/TcpNetwork.cpp:471-524 | the loop queues exactly the packets of the parse as far as the queue has free slots, keeps exactly the rest, and fails on a bad size or a full queue |
| TcpNetworks.TcpNetwork.EnqueueReceivedPacket | ChatServerFolder/SeverNetLib/TcpNetwork.cpp:545-568 | refuses when events and connections fill the queue, else appends the packet event |
| TcpNetworks.TcpNetwork.QueuePacket | ChatServerFolder/SeverNetLib/TcpNetwork.cpp:570-611 | the whole frame is appended, or nothing |
| TcpNetworks.TcpNetwork.CloseClient | ChatServerFolder/SeverNetLib/TcpNetwork.cpp:613-634 | one client goes and its Disconnected event is queued |
| TcpNetworks.TcpNetwork.PushEvent | ChatServerFolder/SeverNetLib/TcpNetwork.cpp:636-645 | the event is appended |
| TcpNetworks.TcpNetwork.Run | ChatServerFolder/SeverNetLib/TcpNetwork.cpp:166-221 | the sweep over the clients followed by the accepting of new ones |
| TcpNetworks.TcpNetwork.SweepClients | ChatServerFolder/SeverNetLib/TcpNetwork.cpp:169-193 | the loop that erases in place is the sweep of the rules |
| TcpNetworks.TcpNetwork.AcceptClients | ChatServerFolder/SeverNetLib/TcpNetwork.cpp:197-219 | the loop accepts as often as allowed and stops at the errors that stop it |
| NetInvariant.StageIsTraceShape | ChatServerFolder/SeverNetLib/TcpNetwork.cpp:545-568 | a trace that is not broken is nothing, or Connected and packets, or Connected, packets and one Disconnected |
| NetInvariant.RecvNeverOverflows | ChatServerFolder/SeverNetLib/TcpNetwork.cpp:393-399 | under every accepted configuration the receive limit is out of reach |
| NetInvariant.AcceptKeepsNetInv | ChatServerFolder/SeverNetLib/TcpNetwork.cpp:326-371 | an accepted session gets an ID never used before, and its slot stays reserved |
| NetInvariant.CloseKeepsNetInv | ChatServerFolder/SeverNetLib/TcpNetwork.cpp:616-624 | closing trades the connection for the slot reserved for its event |
| NetRuns.SweepServesEachOnce | ChatServerFolder/SeverNetLib/TcpNetwork.cpp:167-193 | walking positions while erasing serves the clients present at the start, in order, each once, and none else |
| NetRuns.EveryRunKeepsNetInv | ChatServerFolder/SeverNetLib/TcpNetwork.cpp:253-378 | after any calls under any answers of the sockets: the trace of every session has the right shape, packet events are the parse of the bytes received, wire and send buffer are the frames queued |
| NetRuns.QueueNeverOverflows | ChatServerFolder/SeverNetLib/TcpNetwork.cpp:334-342 | events and open connections together never exceed the limit, so the unchecked push cannot overflow |
| NetRuns.EverySessionTrace | ChatServerFolder/SeverNetLib/TcpNetwork.cpp:362-371 | Connected, then packets, then Disconnected exactly when the session is not open any more; IDs are never used twice |
| Delivery.SendLaw | ChatServerFolder/SeverNetLib/TcpNetwork.cpp:429-469 | exactly the bytes send has taken go from the front of the buffer to the wire, which stays the beginning of the frames queued; send is not called for an empty buffer; a failure or no progress closes the connection |
| Delivery.ReceiveLaw | ChatServerFolder/SeverNetLib/TcpNetwork.cpp:380-427 | what recv delivers is heard to the last byte and yields exactly the packets it completes, as far as the queue has free slots; the connection stays open exactly when the stream is well-formed and the packets fit |
| Delivery.QueueLaw | ChatServerFolder/SeverNetLib/TcpNetwork.cpp:570-611 | a packet is queued, whole and behind all others, exactly when its session is open, its body fits a packet and the bytes not yet sent leave room for its frame |
| Delivery.AcceptLaw | ChatServerFolder/SeverNetLib/TcpNetwork.cpp:306-378 | each refusal of a connection, exactly when; an accepted one has the next ID, empty buffers and a Connected event with its time |
| Delivery.RunAccepts | ChatServerFolder/SeverNetLib/TcpNetwork.cpp:197-219 | a pass accepts the sockets that wait, in order, as many as it may and there is room for, and none when the listener is not ready |
| Delivery.RunHears | ChatServerFolder/SeverNetLib/TcpNetwork.cpp:169-181 | a pass hears from every open session exactly the one chunk recv delivers for it |
| Delivery.RunHolds | ChatServerFolder/SeverNetLib/TcpNetwork.cpp:183-187 | a pass takes from the buffer of a session that stays open exactly the bytes its socket accepts |
| Delivery.EverythingGoesOut | ChatServerFolder/SeverNetLib/TcpNetwork.cpp:438-447 | a session that stays open through as many passes as it had bytes to send, its socket taking at least one byte in each and nothing more being queued for it, has all its frames on the wire |
| Delivery.EverythingArrives | ChatClient/TcpClient.cpp:301-348 | so a client that has received all that was put on the wire has taken exactly the packets queued for it, if it has not given up |
| Delivery.ClientSendLaw | ChatClient/TcpClient.cpp:262-295 | exactly the bytes send has taken go from the front of the buffer to the wire |
| Delivery.ClientReceiveLaw | ChatClient/TcpClient.cpp:215-260 | what recv delivers is heard to the last byte and yields exactly the packets it completes, up to the pending limit |
| Delivery.ClientQueueLaw | ChatClient/TcpClient.cpp:143-180 | a packet is queued exactly when its body fits and the bytes not yet sent leave room for its frame |
| Delivery.ClientEverythingArrives | ChatClient/TcpClient.cpp:269-276 | a client whose socket goes on taking bytes gets all the packets it had queued to the logic of a server that keeps the session open |
| TcpClients.TcpClient.SendPacket | ChatClient/TcpClient.cpp:143-180 | the whole frame is appended, or nothing |
| TcpClients.TcpClient.TryPopPacket | ChatClient/TcpClient.cpp:182-193 | the oldest packet leaves the queue |
| TcpClients.TcpClient.Receive | ChatClient/TcpClient.cpp:215-260 | buffers what was received within the limit and processes it, or fails |
| TcpClients.TcpClient.FlushSend | ChatClient/TcpClient.cpp:262-295 | exactly the bytes taken leave the send buffer |
| TcpClients.TcpClient.ProcessRecvBuffer | ChatClient/TcpClient.cpp:297-358 | the loop takes exactly the packets of the parse up to the pending limit and keeps exactly the rest |
| ClientNetRules.EveryClientRun | ChatClient/TcpClient.cpp:143-358 | after any calls: packets taken are the parse of the bytes received, wire and send buffer are the frames queued |
| ClientNetRules.ClientRecvNeverOverflows | ChatClient/TcpClient.cpp:226-230 | the client's receive limit is out of reach |
| ClientNetRules.TakenIsQueued | ChatClient/TcpClient.cpp:301-348 | in any sound server state, the packets a client has taken from a part of its wire are a prefix of those queued for it, and all of them once every byte has drained |
| ClientNetRules.ServerToClient | ChatServerFolder/SeverNetLib/TcpNetwork.cpp:438-447 | over any runs of both ends the packets the client takes are a prefix of those the server queued, and all of them once every byte has drained |
| ClientNetRules.ClientToServer | ChatClient/TcpClient.cpp:269-276 | over any runs of both ends the packets the server's logic gets are a prefix of those the client queued, and all of them once every byte has drained |
| PacketProcessors.PacketProcessor.constructor | ChatServerFolder/LogicLib/PacketProcessor.cpp:9-18 | no users, no rooms, no deadlines |
| PacketProcessors.PacketProcessor.Update | ChatServerFolder/LogicLib/PacketProcessor.cpp:20-62 | the timeouts, the loop, two login checks and the timeouts again, in this order; each of the four walks meets every entry of its table, and the server invariant is kept |
| PacketProcessors.PacketProcessor.SweepGames | ChatServerFolder/LogicLib/PacketProcessor.cpp:60-61 | every room is met, then every result is announced |
| PacketProcessors.PacketProcessor.Drain | ChatServerFolder/LogicLib/PacketProcessor.cpp:27-54 | the loop terminates and handles every event, also those pushed meanwhile |
| PacketProcessors.PacketProcessor.ProcessPacket | ChatServerFolder/LogicLib/PacketProcessor.cpp:66-90 | the handler of the packet ID, or a disconnect |
| PacketProcessors.PacketProcessor.HandleLogin | ChatServerFolder/LogicLib/PacketProcessor.cpp:93-130 | login, deadline and answer |
| PacketProcessors.PacketProcessor.HandleDisconnected | ChatServerFolder/LogicLib/PacketProcessor.cpp:132-171 | the room is left before the user is removed, results go out, then the notifications |
| PacketProcessors.PacketProcessor.HandleEcho | ChatServerFolder/LogicLib/PacketProcessor.cpp:221-229 | the body comes back, or the connection is dropped |
| PacketProcessors.PacketProcessor.HandleConnected | ChatServerFolder/LogicLib/PacketProcessor.cpp:231-242 | a deadline for a connection that is still open |
| PacketProcessors.PacketProcessor.IsLoginExpired | ChatServerFolder/LogicLib/PacketProcessor.cpp:244-253 | a deadline that has come |
| PacketProcessors.PacketProcessor.CheckLoginTimeouts | ChatServerFolder/LogicLib/PacketProcessor.cpp:255-282 | the loop that erases while walking meets every entry once and drops exactly the expired connections |
| PacketProcessors.PacketProcessor.HandleRoomCreate | ChatServerFolder/LogicLib/PacketProcessor.cpp:284-313 | request, answer and notifications of a new room |
| PacketProcessors.PacketProcessor.HandleRoomList | ChatServerFolder/LogicLib/PacketProcessor.cpp:315-349 | the page for a user in the lobby, an error otherwise |
| PacketProcessors.PacketProcessor.HandleRoomEnter | ChatServerFolder/LogicLib/PacketProcessor.cpp:351-379 | request, answer and notifications of an entry |
| PacketProcessors.PacketProcessor.SendRoomActionResult | ChatServerFolder/LogicLib/PacketProcessor.cpp:381-405 | the room ID goes out with successes only |
| PacketProcessors.PacketProcessor.NotifyRoomMember | ChatServerFolder/LogicLib/PacketProcessor.cpp:407-444 | every member that is still connected is told |
| PacketProcessors.PacketProcessor.HandleRoomLeave | ChatServerFolder/LogicLib/PacketProcessor.cpp:446-480 | room and name are kept from before; results, answer and notifications follow in this order |
| PacketProcessors.PacketProcessor.HandleRoomReady | ChatServerFolder/LogicLib/PacketProcessor.cpp:482-512 | request, answer and, on success, the room's state |
| PacketProcessors.PacketProcessor.HandleRoomStart | ChatServerFolder/LogicLib/PacketProcessor.cpp:514-540 | request, answer and, on success, the room's state |
| PacketProcessors.PacketProcessor.NotifyRoomState | ChatServerFolder/LogicLib/PacketProcessor.cpp:542-612 | the loop over the members builds the snapshot; every member that is still connected gets it |
| PacketProcessors.PacketProcessor.SendGameMoveResult | ChatServerFolder/LogicLib/PacketProcessorGame.cpp:50-71 | the answer goes out, or the connection is dropped |
| PacketProcessors.PacketProcessor.HandleGameResign | ChatServerFolder/LogicLib/PacketProcessorGame.cpp:73-96 | request and answer of a resignation |
| PacketProcessors.PacketProcessor.FlushFinishedGames | ChatServerFolder/LogicLib/PacketProcessorGame.cpp:98-142 | the loop announces every result in order, each followed by the state of its room |
| PacketProcessors.PacketProcessor.HandleGameMove | ChatServerFolder/LogicLib/PacketProcessorGame.cpp:144-224 | request, answer and notification of a move |
| PacketProcessors.PacketProcessor.HandleChat | ChatServerFolder/LogicLib/PacketProcessorChat.cpp:14-107 | the checks in their order, both answers, then the message to the room |
| ServerPartition.RoundKeeps | ChatServerFolder/LogicLib/PacketProcessor.cpp:27-54 | one round of the loop keeps the server invariant and takes exactly one from events and connections together |
| ServerPartition.DrainingTerminates | ChatServerFolder/LogicLib/PacketProcessor.cpp:27-27 | after at most as many rounds as there are events and connections the queue is empty, whatever the handlers push |
| ServerPartition.DrainedServer | ChatServerFolder/LogicLib/PacketProcessor.cpp:231-240 | with the queue drained the open sessions are exactly the users and those with a login deadline, never both, and every room member is a live connection |
| ServerPartition.FirstEvent | ChatServerFolder/SeverNetLib/TcpNetwork.cpp:261-263 | the first queued event concerns a session announced once and, if it says Disconnected, one that is not open any more |
| ServerRuns.UpdateKeeps | ChatServerFolder/LogicLib/PacketProcessor.cpp:20-62 | Update keeps the invariant, its loop empties the queue, and all it leaves there are Disconnected events |
| ServerRuns.NoOverdueGameStays | ChatServerFolder/LogicLib/RoomManager.cpp:246-252 | a sweep that meets every room leaves no game whose turn is over and no result unannounced |
| ServerRuns.UpdateLeavesNothingOverdue | ChatServerFolder/LogicLib/PacketProcessor.cpp:20-62 | after Update no game is left whose turn was over at its last reading, no login deadline that had come at either check, every session with such a deadline is cut off, and every result has been announced; games overdue at its start end before its loop |
| ServerRuns.NoExpiredLoginStays | ChatServerFolder/LogicLib/PacketProcessor.cpp:261-281 | a check that meets every entry keeps exactly the deadlines still to come, closes the connections of the others and no other connection |
| ServerRuns.NetPassKeeps | ChatServerFolder/SeverNetLib/TcpNetwork.cpp:166-219 | a pass over the sockets keeps every session in its place |
| ServerRuns.EveryServerRun | ChatServerFolder/ConsoleHost/ServerApp.cpp:63-93 | after any run of passes and updates network, rooms and login table agree, and the next loop leaves no stale user |
| ServerRefinement.PacketIsDone | ChatServerFolder/LogicLib/PacketProcessor.cpp:66-90 | every packet makes exactly the one call of the lobby it asks for, or none if it is malformed or of another kind; only after leaving may results be taken out with it |
| ServerRefinement.RoundIsDone | ChatServerFolder/LogicLib/PacketProcessor.cpp:27-54 | so does every round of the loop: a packet of a closed or overdue session makes none, a closed connection the one for disconnecting |
| ServerRefinement.EveryServerRunIsALobbyRun | ChatServerFolder/LogicLib/PacketProcessor.cpp:20-62 | after any run of the server its lobby is one that calls of the lobby lead to, so every theorem on those runs holds of the server |
| ServerRefinement.ServerConservesGames | ChatServerFolder/LogicLib/RoomManager.cpp:302-311 | after any run of the server every game ever started is played in one room or recorded once |
| ServerRefinement.DisconnectRecords | ChatServerFolder/LogicLib/PacketProcessor.cpp:132-161 | a player who disconnects loses the running game with the reason Disconnected, or by the timeout that came first; nothing else is recorded |
| ServerRefinement.LeaveRecords | ChatServerFolder/LogicLib/PacketProcessor.cpp:446-470 | one who leaves loses it with the reason LeftRoom, or by the timeout; nothing else is recorded |
| ServerRefinement.ResignRecords | ChatServerFolder/LogicLib/PacketProcessorGame.cpp:73-96 | one who resigns the game in its room loses it with the reason Resigned, or by the timeout; refused requests record nothing |
| ServerRefinement.MoveRecords | ChatServerFolder/LogicLib/PacketProcessorGame.cpp:144-170 | a move records the end it brings, or the timeout it comes too late for, or nothing |
| ServerRefinement.OverdueGamesTimeOut | ChatServerFolder/LogicLib/PacketProcessor.cpp:22-23 | a game whose turn is over at the first reading of an Update is lost by the side to move before any packet is looked at, whatever the packets and the clock say then |
| LoginDeadlines.DeadlinesAreKept | ChatServerFolder/LogicLib/PacketProcessor.cpp:231-242 | in every run a login deadline is the time of the session's Connected event plus the login timeout |
| LoginDeadlines.NobodyIsCutEarly | ChatServerFolder/LogicLib/PacketProcessor.cpp:261-281 | no login check cuts off a session before that time, in any state of any run |
| LoginDeadlines.LoginsAreCutExactly | ChatServerFolder/LogicLib/PacketProcessor.cpp:56-58 | behind the loop of every Update of every run a check leaves an open session open exactly when it has logged in or its time is not over |
| LoginDeadlines.LatePacketsAreCut | ChatServerFolder/LogicLib/PacketProcessor.cpp:37-49 | the loop processes a packet of an open session exactly when the session has logged in or its time is not over; otherwise the session is cut off and the lobby left alone |
| Outbox.BroadcastAdds | ChatServerFolder/LogicLib/PacketProcessorGame.cpp:208-223 | a broadcast queues its packet for every target that is still connected afterwards, once, and for nobody else |
| GameSteps.OtherPacketStays | ChatServerFolder/LogicLib/PacketProcessor.cpp:176-194 | every request but a move leaves each running game as it is, stops it, or starts a new one under a new ID |
| GameSteps.OtherPacketIsMute | ChatServerFolder/LogicLib/PacketProcessor.cpp:66-90 | every request but a move queues no move notification for anybody |
| ServerReplica.MoveReachesPlayers | ChatServerFolder/LogicLib/PacketProcessorGame.cpp:164-223 | an accepted move is queued for every member of its room who is still connected afterwards, once and after all before it, and for nobody else |
| ServerReplica.EveryRunMirrors | ChatClient/ClientGameView.h:60-82 | after any run of the whole server, the move notifications queued for a connected player of a running game, decoded and replayed from an empty board, all apply and give the server's board, turn, state and count |
| ServerReplica.ClientSeesTheGame | ChatClient/ClientGameView.h:50-82 | for any run of server and client: what the player's client has taken from the stream all applies, its board shows that many first stones of the server's, and once the bytes have drained the two agree |
| Overtaking.ReadyOvertakes | ChatServerFolder/LogicLib/PacketProcessor.cpp:482-511 | a ready request tells of a waiting room before its result exactly when it succeeds while a result of that room is queued, and then tells every member still connected |
| Overtaking.FlushVerdict | ChatServerFolder/LogicLib/PacketProcessorGame.cpp:102-141 | announcing a result does so exactly when a later result of the same waiting room is queued behind it |
| Overtaking.OnlyReadyOvertakes | ChatServerFolder/LogicLib/PacketProcessor.cpp:27-54 | in every round of every Update of every run, a notification has overtaken a result that still waits only for such a ready request |
| Overtaking.ResignThenReady | ChatServerFolder/LogicLib/PacketProcessorGame.cpp:73-96 | it happens in every running game whose guest resigns and asks to be ready in one Update: the members are told the room waits while no result has been queued for anybody |
| Transcripts.FlushSends | ChatServerFolder/LogicLib/PacketProcessorGame.cpp:98-142 | announcing the results queues for everybody who stays connected exactly its results, in order, each followed by how the room is for its members |
| Answers.EveryRequestIsAnswered | ChatServerFolder/LogicLib/PacketProcessor.cpp:66-90 | for every packet: each session that stays connected is sent exactly its part of the output, answer and notifications in their order, behind all that was queued for it; a malformed packet cuts off its sender and does nothing else; a chat message whose sender cannot be answered is passed on to nobody |
| Answers.DisconnectSends | ChatServerFolder/LogicLib/PacketProcessor.cpp:132-171 | a closed connection makes the server send the results first, then to those left behind that the user has disconnected, then how the room is |
| Browsing.ListVerdict | ChatServerFolder/LogicLib/PacketProcessor.cpp:327-340 | a user in the lobby is answered exactly the first 20 rooms with greater IDs than the one asked for, as they are, and whether there are others; users in rooms and strangers are refused, each with its reason |
| Browsing.ListRequestsAreAnswered | ChatServerFolder/LogicLib/PacketProcessor.cpp:315-349 | a list request of a user in the lobby, whenever it comes in, is answered with a list that is decoded to the page after the room it names, if the session stays open |
| Browsing.BrowsingListsEveryRoomOnce | ChatClient/ChatClient.cpp:543-549 | a client that asks on after the last room of each answer while there is more has, if its session is still open at the end, been sent every room once, in increasing ID order, as it is |
| RoomChanges.CallTouches | ChatServerFolder/LogicLib/RoomManager.cpp:30-528 | no call of the lobby changes what the members of a room have to be told, but in the one room it is about, or by a result that waits |
| Notices.MembersKnowTheirRoom | ChatServerFolder/LogicLib/PacketProcessor.cpp:542-612 | after any run of the whole server, the last room notification queued for each connected member is decoded to the room as it is: phase, game, host, and the players with their names and marks |
| Notices.PlayersKnowTheirResults | ChatServerFolder/LogicLib/PacketProcessorGame.cpp:98-142 | after any run, what has been queued for a connected session are exactly the results of its games, each once, in the order in which they ended |
| Encodability.SnapshotIsSent | ChatServerFolder/LogicLib/PacketProcessor.cpp:552-594 | the snapshot of every room is found, shows the room as it is, is valid, fits a packet and is decoded to itself |
| Encodability.RoomStateGoesOut | ChatServerFolder/LogicLib/PacketProcessor.cpp:561-611 | a room notification takes none of its silent returns: it is broadcast to the members |
| Encodability.RoomMemberGoesOut | ChatServerFolder/LogicLib/PacketProcessor.cpp:419-443 | a member notification about any user is broadcast to the members, never silently dropped |
| Encodability.EndIsSent | ChatServerFolder/LogicLib/PacketProcessorGame.cpp:104-115 | every record can be announced and is decoded to its own numbers |
| Encodability.EndGoesOut | ChatServerFolder/LogicLib/PacketProcessorGame.cpp:115-140 | a flushed result is broadcast to its players and never drops them |
| Encodability.MoveIsSent | ChatServerFolder/LogicLib/PacketProcessorGame.cpp:164-203 | every accepted move finds its room, can be encoded and is decoded to the move that was asked for |
| Encodability.RoomListIsSent | ChatServerFolder/LogicLib/PacketProcessor.cpp:325-345 | whatever a client asks for, the list it gets is valid, fits a packet and is decoded to itself |
| Encodability.RoomResponsesArePaired | ChatServerFolder/LogicLib/PacketProcessor.cpp:383-391 | every response the server builds names a room exactly when it reports success, and is decoded to itself |

## Left out

- Winsock set-up and tear-down, socket handles, `select` itself, threads, console input and output, board printing and logging: input and output. A pass with nothing ready stands for a `select` that times out.
- The command parser and the message switch of the client (ChatClient/ChatClient.cpp), except for asking on after the last room of a page.
- What the client does with `ROOM_STATE_NTF` and `GAME_END_NTF` (ChatClient/ChatClient.cpp:648-700, 850-856), and so a promise that it accepts every result: the Overtaking module shows that a waiting room can be announced first. The replica theorems are about one game from its beginning through its moves.
- The bodies of login, chat and echo packets are treated as plain bytes: a login or chat request is its text, and member notifications and one-byte answers are built by plain functions without a writer object.
- The check for valid UTF-8 (`MultiByteToWideChar`) is an arbitrary predicate on bytes; nothing depends on what it accepts.
- The order in which hash tables are walked: every order is allowed; that each entry is met is part of the contracts of `UpdateTimeouts` and `CheckLoginTimeouts`.
- Sessions that are open when a network is closed or opened again: they get no event. The theorems about runs start at one opening, whatever the last session ID was then.
- FD_SETSIZE is taken to be 64, the default of Winsock.
- Copies and references of C++: users and clients are values inside their tables; only rooms and games are objects, and a room is never moved.
- The two enumerations for stones and states inside the server and on the wire are one, as they are in the code by alias; `ToPacketStone` and `ToPacketState` are therefore identities and have no member.
- RoomManagers.RoomManager.constructor: a configuration that is not accepted makes the source throw; here it is a precondition that it is.
- Rooms.Room.constructor: the source throws on bad arguments; here the caller, `CreateRoom`, tests them first and reports the throw.
- PacketProcessors.PacketProcessor.constructor: a login timeout that is not positive makes the source throw; here it is a precondition.
- PacketProcessors.PacketProcessor.Update: a throw inside it would end the program; the model goes on, and `LobbyRuns.EveryRunKeepsRunInv` shows that there is none.
- ClientNetRules.ServerToClient: that everything arrives has the hypothesis that the client is still open, since one read can complete more packets than the client's pending limit of 1024.
- Physical time and fairness: clock readings are arbitrary integers, and nothing is promised about when a socket becomes ready.
