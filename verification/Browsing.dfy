/** What a client sees that walks over the room list request by request: the pages it is sent
    put together are all rooms, each once, in the order of their IDs. */
module Browsing {
  import opened Protocol
  import opened Framing
  import opened NetRules
  import opened NetInvariant
  import OmokRules
  import opened RoomRules
  import opened LobbyRules
  import opened LobbyInvariant
  import opened LobbyVerdicts
  import opened WireFormat
  import opened RoomPacketCodec
  import opened RoomListing
  import opened ServerRules
  import opened ServerInvariant
  import opened ServerRefinement
  import opened Encodability
  import opened Transcripts
  import opened Answers

  // ----- one answer -----

  predicate IsListed(infos: seq<RoomInfo>, id: RoomId) {
    exists i :: 0 <= i < |infos| && infos[i].roomId == id
  }

  /** The entry shows the room as it is. */
  predicate Shows(rooms: map<RoomId, RoomState>, info: RoomInfo) {
    && info.roomId in rooms
    && var r := rooms[info.roomId];
    info.userCount == |r.members| && info.capacity == r.capacity && info.title == r.title
  }

  /** The entries are the first rooms after an ID, at most a page, in the order of their IDs;
      hasMore says whether there are others. */
  ghost predicate IsPage(rooms: map<RoomId, RoomState>, after: RoomId, infos: seq<RoomInfo>, hasMore: bool) {
    && |infos| <= ROOM_LIST_PAGE_SIZE
    && (forall i, j :: 0 <= i < j < |infos| ==> infos[i].roomId < infos[j].roomId)
    && (forall i :: 0 <= i < |infos| ==> infos[i].roomId > after && Shows(rooms, infos[i]))
    && (forall id :: id in rooms && id > after && !IsListed(infos, id) ==>
          |infos| == ROOM_LIST_PAGE_SIZE && forall i :: 0 <= i < |infos| ==> infos[i].roomId < id)
    && (hasMore <==> exists id :: id in rooms && id > after && !IsListed(infos, id))
  }

  lemma EntryShows(s: LobbyState, id: RoomId)
    requires LobbyInv(s) && id in s.rooms
    ensures InfoOf(s.rooms[id]).roomId == id && Shows(s.rooms, InfoOf(s.rooms[id]))
  {
    hide LobbyInv, OmokRules.GameInv, Distinct;
    RoomsAreSound(s, id);
  }

  lemma EntriesShow(s: LobbyState, ids: seq<RoomId>)
    requires LobbyInv(s) && forall i :: 0 <= i < |ids| ==> ids[i] in s.rooms
    ensures forall i :: 0 <= i < |ids| ==> Infos(s.rooms, ids)[i].roomId == ids[i] && Shows(s.rooms, Infos(s.rooms, ids)[i])
    ensures forall id :: IsListed(Infos(s.rooms, ids), id) <==> id in ids
  {
    hide LobbyInv, InfoOf;
    forall i | 0 <= i < |ids| ensures Infos(s.rooms, ids)[i].roomId == ids[i] && Shows(s.rooms, Infos(s.rooms, ids)[i]) {
      EntryShows(s, ids[i]);
    }
  }

  lemma PageIsFirstRooms(s: LobbyState, after: RoomId)
    requires LobbyInv(s)
    ensures IsPage(s.rooms, after, GetRoomsAfter(s.rooms, after).0, GetRoomsAfter(s.rooms, after).1)
  {
    hide LobbyInv, Sorted, Shows, IsListed, Infos, InfoOf;
    var all, ids := Sorted(After(s.rooms, after)), PageIds(s.rooms, after);
    var (infos, hasMore) := GetRoomsAfter(s.rooms, after);
    EntriesShow(s, ids);
    ListedAreThere(s.rooms, after);
    forall id | id in s.rooms && id > after && id !in ids
      ensures |ids| == ROOM_LIST_PAGE_SIZE && hasMore && forall i :: 0 <= i < |ids| ==> ids[i] < id
    {
      assert id in After(s.rooms, after);
      var k :| 0 <= k < |all| && all[k] == id;
    }
    if hasMore {
      var id := all[ROOM_LIST_PAGE_SIZE];
      assert id in After(s.rooms, after) && id !in ids;
    }
  }

  /** The answer to a list request: a refusal for those who are not in the lobby, the next page
      for those who are. */
  lemma ListVerdict(run: Run, session: SessionId, after: RoomId)
    requires RunInv(run)
    ensures var s, p := run.lobby, RoomListFor(run.lobby, session, after);
            && (p.result == RoomResult.Success <==> IsInLobby(s, session))
            && (p.result == RoomResult.UserNotFound <==> !IsUser(s, session))
            && (p.result == RoomResult.AlreadyInRoom <==> exists id :: IsIn(s, session, id))
            && (if IsInLobby(s, session) then IsPage(s.rooms, after, p.rooms, p.hasMore) else p.rooms == [] && !p.hasMore)
  {
    hide RunInv, LobbyInv, GetRoomsAfter, IsPage, IsIn;
    RunHasLobbyInv(run);
    PageIsFirstRooms(run.lobby, after);
    LobbyOrRoom(run.lobby, session);
    LobbyOrRoomIsUser(run.lobby, session);
  }

  // ----- asking on -----

  /** The request for the rooms after an ID. */
  function ListRequest(after: uint32): Packet {
    Packet(ROOM_LIST_REQ, U32Bytes(after))
  }

  ghost function Asked(s: Server, session: SessionId, after: uint32): Server {
    HandleRoomList(s, session, ListRequest(after).body)
  }

  /** The list the session has been sent last, if the last packet was one. */
  function LastList(n: NetState, session: SessionId): Option<RoomListResponse> {
    if session !in n.queued || n.queued[session] == [] then None
    else
      var last := n.queued[session][|n.queued[session]| - 1];
      if last.id == ROOM_LIST_RES then DecodedRoomList(last.body) else None
  }

  lemma RequestIsRead(after: uint32)
    ensures DecodedRoomId(U32Bytes(after)) == Some(after)
  {
    U32Exact(U32Bytes(after), after, []);
    assert U32Bytes(after) + [] == U32Bytes(after);
  }

  /** What a request for the list brings, as long as the session stays open: exactly the next
      page; and nothing changes but the network. */
  lemma AskingYieldsThePage(s: Server, session: SessionId, after: uint32)
    requires Sound(s) && IsInLobby(s.run.lobby, session)
    ensures var t := Asked(s, session, after);
            var (infos, hasMore) := GetRoomsAfter(s.run.lobby.rooms, after);
            && Sound(t) && t.run == s.run && (IsConnected(t.net, session) ==> IsConnected(s.net, session))
            && (IsConnected(t.net, session) ==>
                  LastList(t.net, session) == Some(RoomListResponse(RoomResult.Success, hasMore, infos)))
  {
    hide NetInvBut, RunInv, HandleRoomList, DecodedRoomId, RoomListBytes, DecodedRoomList, PacketsFor, IsConnected, GetRoomsAfter, Passes;
    RequestIsRead(after);
    ListSends(s, session, U32Bytes(after));
    OnePacketFor([session], Packet(ROOM_LIST_RES, RoomListBytes(RoomListFor(s.run.lobby, session, after))), session);
    RoomListIsCalm(s, session, U32Bytes(after));
    SilentHandlersKeepRun(s, session, U32Bytes(after));
    RoomListIsSent(s.run, session, after);
  }

  /** The request as it comes in, at any time: it is answered with the page after the room it
      names, if the session stays open. */
  lemma ListRequestsAreAnswered(s: Server, session: SessionId, after: uint32, now: Time)
    requires Sound(s) && IsInLobby(s.run.lobby, session)
    ensures var t := ProcessPacket(s, session, ListRequest(after), now);
            && t == Asked(s, session, after)
            && (IsConnected(t.net, session) ==>
                  && LastList(t.net, session).Some?
                  && var p := LastList(t.net, session).value;
                  p.result == RoomResult.Success && IsPage(s.run.lobby.rooms, after, p.rooms, p.hasMore))
  {
    hide NetInvBut, RunInv, HandleRoomList, LastList, IsConnected, GetRoomsAfter, IsPage, ListRequest, LobbyInv;
    AskingYieldsThePage(s, session, after);
    LobbyOfSound(s);
    PageIsFirstRooms(s.run.lobby, after);
    AskedIsProcessed(s, session, after, now);
  }

  lemma AskedIsProcessed(s: Server, session: SessionId, after: uint32, now: Time)
    ensures ProcessPacket(s, session, ListRequest(after), now) == Asked(s, session, after)
  {
    hide HandleRoomList;
  }

  /** A full page that is not the last ends with a room that lies further on. */
  lemma NextAskIsSmaller(s: LobbyState, after: RoomId)
    requires LobbyInv(s) && GetRoomsAfter(s.rooms, after).1
    ensures var infos := GetRoomsAfter(s.rooms, after).0;
            && infos != []
            && infos[|infos| - 1].roomId == PageIds(s.rooms, after)[ROOM_LIST_PAGE_SIZE - 1]
            && |After(s.rooms, infos[|infos| - 1].roomId)| < |After(s.rooms, after)|
  {
    hide LobbyInv, Sorted, Shows;
    EntriesShow(s, PageIds(s.rooms, after));
    NextPageIsSmaller(s.rooms, after);
  }

  /** The client's walk: it asks, takes the page, and asks on after its last room while there is
      more. The result is what it has listed, and the server afterwards. */
  ghost function Browsed(s: Server, session: SessionId, after: uint32): (seq<RoomInfo>, Server)
    requires Sound(s) && IsInLobby(s.run.lobby, session)
    decreases |After(s.run.lobby.rooms, after)|
  {
    AskingYieldsThePage(s, session, after);
    LobbyOfSound(s);
    var t := Asked(s, session, after);
    var page := LastList(t.net, session);
    if !IsConnected(t.net, session) || page == None then ([], t)
    else if !page.value.hasMore || page.value.rooms == [] then (page.value.rooms, t)
    else
      NextAskIsSmaller(s.run.lobby, after);
      var more := Browsed(t, session, page.value.rooms[|page.value.rooms| - 1].roomId);
      (page.value.rooms + more.0, more.1)
  }

  lemma LobbyOfSound(s: Server)
    requires Sound(s)
    ensures LobbyInv(s.run.lobby)
  {
    hide NetInvBut, LobbyInv, Conserved, ClocksInv;
  }

  /** The whole list after an ID. */
  ghost function AllAfter(rooms: map<RoomId, RoomState>, after: RoomId): seq<RoomInfo> {
    ListedAreThere(rooms, after);
    Infos(rooms, Sorted(After(rooms, after)))
  }

  /** One page and the list after its last room. */
  lemma ListByPages(s: LobbyState, after: RoomId)
    requires LobbyInv(s)
    ensures var (page, hasMore) := GetRoomsAfter(s.rooms, after);
            if hasMore then page != [] && AllAfter(s.rooms, after) == page + AllAfter(s.rooms, page[|page| - 1].roomId)
            else AllAfter(s.rooms, after) == page
  {
    hide LobbyInv, Sorted, After, Infos;
    WalkListsEveryRoomOnce(s.rooms, after);
    var (page, hasMore) := GetRoomsAfter(s.rooms, after);
    if hasMore {
      NextAskIsSmaller(s, after);
      WalkListsEveryRoomOnce(s.rooms, page[|page| - 1].roomId);
    }
  }

  lemma OneAsk(s: Server, session: SessionId, after: uint32)
    requires Sound(s) && IsInLobby(s.run.lobby, session)
    ensures var t := Asked(s, session, after);
            var (page, hasMore) := GetRoomsAfter(s.run.lobby.rooms, after);
            && Sound(t) && t.run == s.run && (IsConnected(t.net, session) ==> IsConnected(s.net, session))
            && (hasMore ==> page != [] && |After(s.run.lobby.rooms, page[|page| - 1].roomId)| < |After(s.run.lobby.rooms, after)|)
            && var b := Browsed(s, session, after);
            && (!IsConnected(t.net, session) || !hasMore ==> b.1 == t)
            && (IsConnected(t.net, session) && !hasMore ==> b.0 == page)
            && (IsConnected(t.net, session) && hasMore ==>
                  var more := Browsed(t, session, page[|page| - 1].roomId); b.0 == page + more.0 && b.1 == more.1)
  {
    hide LobbyInv, Sound, Asked, LastList, IsConnected, After, GetRoomsAfter, IsInLobby;
    AskingYieldsThePage(s, session, after);
    LobbyOfSound(s);
    if GetRoomsAfter(s.run.lobby.rooms, after).1 { NextAskIsSmaller(s.run.lobby, after); }
  }

  /** Paging is exact from end to end: if the session is still open when the walk ends, the
      client has listed every room after the first ID once, in increasing ID order, as it is. */
  lemma {:induction false} BrowsingListsEveryRoomOnce(s: Server, session: SessionId, after: uint32)
    requires Sound(s) && IsInLobby(s.run.lobby, session)
    ensures var (infos, end) := Browsed(s, session, after);
            && Sound(end) && end.run == s.run && (IsConnected(end.net, session) ==> IsConnected(s.net, session))
            && (IsConnected(end.net, session) ==> infos == AllAfter(s.run.lobby.rooms, after))
    decreases |After(s.run.lobby.rooms, after)|
  {
    hide *;
    OneAsk(s, session, after);
    LobbyOfSound(s);
    ListByPages(s.run.lobby, after);
    var t := Asked(s, session, after);
    var (page, hasMore) := GetRoomsAfter(s.run.lobby.rooms, after);
    if IsConnected(t.net, session) && hasMore {
      BrowsingListsEveryRoomOnce(t, session, page[|page| - 1].roomId);
    }
  }
}
