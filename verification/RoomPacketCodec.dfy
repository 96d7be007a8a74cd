/** The room packets on the wire (Common/RoomPacketCodec.h): which packets may be
    sent, their bytes, and encoders and decoders that are exact inverses. */
module RoomPacketCodec {
  import opened Protocol
  import opened WireFormat

  datatype RoomInfo = RoomInfo(roomId: uint32, userCount: byte, capacity: byte, title: Bytes)

  datatype RoomListResponse = RoomListResponse(result: RoomResult, hasMore: bool, rooms: seq<RoomInfo>)

  datatype RoomPlayerInfo = RoomPlayerInfo(nickname: Bytes, ready: bool)

  datatype RoomStateNotification = RoomStateNotification(
    roomId: uint32, game: uint32, phase: RoomPhase, capacity: byte, hostNickname: Bytes, players: seq<RoomPlayerInfo>)

  datatype RoomActionResponse = RoomActionResponse(result: RoomResult, roomId: uint32)

  datatype RoomMemberNotification = RoomMemberNotification(roomId: uint32, change: RoomMemberChange, nickname: Bytes)

  // ----- result codes -----

  function RoomResultCode(r: RoomResult): byte {
    match r
    case Success => 0 case UserNotFound => 1 case AlreadyInRoom => 2 case NotInRoom => 3
    case InvalidTitle => 4 case RoomLimitReached => 5 case RoomIdExhausted => 6 case StateMismatch => 7
    case RoomNotFound => 8 case RoomFull => 9 case InvalidRequest => 10 case NotHost => 11
    case HostCannotReady => 12 case NotEnoughPlayers => 13 case NotAllReady => 14
    case GameAlreadyStarted => 15 case GameInProgress => 16 case GameIdExhausted => 17
  }

  const ROOM_RESULTS: seq<RoomResult> := [
    RoomResult.Success, RoomResult.UserNotFound, RoomResult.AlreadyInRoom, RoomResult.NotInRoom,
    RoomResult.InvalidTitle, RoomResult.RoomLimitReached, RoomResult.RoomIdExhausted, RoomResult.StateMismatch,
    RoomResult.RoomNotFound, RoomResult.RoomFull, RoomResult.InvalidRequest, RoomResult.NotHost,
    RoomResult.HostCannotReady, RoomResult.NotEnoughPlayers, RoomResult.NotAllReady,
    RoomResult.GameAlreadyStarted, RoomResult.GameInProgress, RoomResult.GameIdExhausted]

  function GetResult(b: Bytes): Read<RoomResult> {
    var (code, rest) :- GetU8(b);
    if code >= |ROOM_RESULTS| then Fail else Got(ROOM_RESULTS[code], rest)
  }

  lemma ResultExact(b: Bytes, r: RoomResult, rest: Bytes)
    ensures GetResult(b) == Got(r, rest) <==> b == [RoomResultCode(r)] + rest
  {
    U8Exact(b, RoomResultCode(r), rest);
    if b != [] && b[0] < |ROOM_RESULTS| { assert RoomResultCode(ROOM_RESULTS[b[0]]) == b[0]; }
    assert ROOM_RESULTS[RoomResultCode(r)] == r;
  }

  function FlagByte(flag: bool): byte {
    if flag then 1 else 0
  }

  // ----- room list -----

  /** A list entry that may follow an entry with the ID previous. */
  predicate RoomInfoOk(r: RoomInfo, previous: int) {
    r.roomId > previous && r.capacity != 0 && r.userCount <= r.capacity && 0 < |r.title| <= MAX_ROOM_TITLE_BYTES
  }

  predicate RoomInfosOk(rooms: seq<RoomInfo>, previous: int) {
    rooms == [] || (RoomInfoOk(rooms[0], previous) && RoomInfosOk(rooms[1..], rooms[0].roomId))
  }

  predicate ValidRoomList(p: RoomListResponse) {
    && |p.rooms| <= ROOM_LIST_PAGE_SIZE
    && (p.result != RoomResult.Success ==> p.rooms == [] && !p.hasMore)
    && (p.hasMore ==> p.rooms != [])
    && RoomInfosOk(p.rooms, 0)
  }

  function RoomInfoBytes(r: RoomInfo): Bytes {
    U32Bytes(r.roomId) + ([r.userCount] + ([r.capacity] + Text8Bytes(r.title)))
  }

  function RoomInfosBytes(rooms: seq<RoomInfo>): Bytes {
    if rooms == [] then [] else RoomInfoBytes(rooms[0]) + RoomInfosBytes(rooms[1..])
  }

  lemma {:induction false} RoomInfosAreShort(rooms: seq<RoomInfo>, previous: int)
    requires RoomInfosOk(rooms, previous)
    ensures |RoomInfosBytes(rooms)| <= |rooms| * 55
    decreases |rooms|
  {
    if rooms != [] {
      RoomInfosAreShort(rooms[1..], rooms[0].roomId);
    }
  }

  function RoomListBytes(p: RoomListResponse): Bytes {
    [RoomResultCode(p.result)] + ([FlagByte(p.hasMore)] + ([|p.rooms| % 256] + RoomInfosBytes(p.rooms)))
  }

  /** Every valid page fits into one packet, so Finish never refuses it. */
  lemma RoomListFits(p: RoomListResponse)
    requires ValidRoomList(p)
    ensures |RoomListBytes(p)| <= MAX_BODY_SIZE
  {
    RoomInfosAreShort(p.rooms, 0);
  }

  function GetRoomInfo(b: Bytes, previous: int): Read<RoomInfo> {
    var (roomId, b1) :- GetU32(b);
    var (userCount, b2) :- GetU8(b1);
    var (capacity, b3) :- GetU8(b2);
    var (title, b4) :- GetText8(b3);
    var r := RoomInfo(roomId, userCount, capacity, title);
    if RoomInfoOk(r, previous) then Got(r, b4) else Fail
  }

  function GetRoomInfos(b: Bytes, count: nat, previous: int): Read<seq<RoomInfo>>
    decreases count
  {
    if count == 0 then Got([], b)
    else
      var (first, rest) :- GetRoomInfo(b, previous);
      Following([first], GetRoomInfos(rest, count - 1, first.roomId))
  }

  function Following<T>(first: seq<T>, more: Read<seq<T>>): Read<seq<T>> {
    if more.Fail? then Fail else Got(first + more.value, more.rest)
  }

  function GetRoomList(body: Bytes): Read<RoomListResponse> {
    var (result, b1) :- GetResult(body);
    var (hasMore, b2) :- GetU8(b1);
    var (count, b3) :- GetU8(b2);
    if hasMore > 1 || count > ROOM_LIST_PAGE_SIZE then Fail
    else if result != RoomResult.Success && (count != 0 || hasMore != 0) then Fail
    else if hasMore != 0 && count == 0 then Fail
    else
      var (rooms, b4) :- GetRoomInfos(b3, count, 0);
      Got(RoomListResponse(result, hasMore != 0, rooms), b4)
  }

  function DecodedRoomList(body: Bytes): Option<RoomListResponse> {
    Whole(GetRoomList(body))
  }

  lemma RoomInfoExact(b: Bytes, previous: int, r: RoomInfo, rest: Bytes)
    ensures GetRoomInfo(b, previous) == Got(r, rest) <==> RoomInfoOk(r, previous) && b == RoomInfoBytes(r) + rest
  {
    hide U32Bytes, Text8Bytes, GetU32, GetU8, GetText8;
    if RoomInfoOk(r, previous) {
      var b1 := [r.userCount] + ([r.capacity] + (Text8Bytes(r.title) + rest));
      U32Exact(b, r.roomId, b1);
      U8Exact(b1, r.userCount, [r.capacity] + (Text8Bytes(r.title) + rest));
      U8Exact([r.capacity] + (Text8Bytes(r.title) + rest), r.capacity, Text8Bytes(r.title) + rest);
      Text8Exact(Text8Bytes(r.title) + rest, r.title, rest);
      assert RoomInfoBytes(r) + rest == U32Bytes(r.roomId) + b1;
      if GetRoomInfo(b, previous) == Got(r, rest) {
        var c1 := GetU32(b).rest;
        var c2 := GetU8(c1).rest;
        var c3 := GetU8(c2).rest;
        U32Exact(b, r.roomId, c1);
        U8Exact(c1, r.userCount, c2);
        U8Exact(c2, r.capacity, c3);
        Text8Exact(c3, r.title, rest);
      }
    }
  }

  lemma {:induction false} RoomInfosExact(b: Bytes, count: nat, previous: int, rooms: seq<RoomInfo>, rest: Bytes)
    ensures GetRoomInfos(b, count, previous) == Got(rooms, rest) <==>
            |rooms| == count && RoomInfosOk(rooms, previous) && b == RoomInfosBytes(rooms) + rest
    decreases count
  {
    hide GetRoomInfo, RoomInfoBytes, RoomInfoOk;
    if count > 0 {
      var g := GetRoomInfo(b, previous);
      if GetRoomInfos(b, count, previous) == Got(rooms, rest) {
        RoomInfoExact(b, previous, g.value, g.rest);
        RoomInfosExact(g.rest, count - 1, g.value.roomId, rooms[1..], rest);
        assert rooms[0] == g.value;
        assert RoomInfoBytes(g.value) + (RoomInfosBytes(rooms[1..]) + rest) == RoomInfosBytes(rooms) + rest;
      }
      if |rooms| == count && RoomInfosOk(rooms, previous) && b == RoomInfosBytes(rooms) + rest {
        var b1 := RoomInfosBytes(rooms[1..]) + rest;
        assert b == RoomInfoBytes(rooms[0]) + b1;
        RoomInfoExact(b, previous, rooms[0], b1);
        RoomInfosExact(b1, count - 1, rooms[0].roomId, rooms[1..], rest);
        assert rooms == [rooms[0]] + rooms[1..];
      }
    }
  }

  /** The room-list codec is exact: a body decodes to p if and only if p may be sent
      and the body is what it is encoded to. Both round trips follow. */
  lemma RoomListExact(body: Bytes, p: RoomListResponse)
    ensures DecodedRoomList(body) == Some(p) <==> ValidRoomList(p) && body == RoomListBytes(p)
  {
    hide GetResult, GetU8, GetRoomInfos, RoomInfosBytes, RoomInfosOk, RoomResultCode;
    if DecodedRoomList(body).Some? {
      var d := DecodedRoomList(body).value;
      var b1 := GetResult(body).rest;
      var b2 := GetU8(b1).rest;
      var b3 := GetU8(b2).rest;
      ResultExact(body, d.result, b1);
      U8Exact(b1, GetU8(b1).value, b2);
      U8Exact(b2, GetU8(b2).value, b3);
      RoomInfosExact(b3, GetU8(b2).value, 0, d.rooms, []);
      assert RoomInfosBytes(d.rooms) + [] == RoomInfosBytes(d.rooms);
    }
    if ValidRoomList(p) && body == RoomListBytes(p) {
      var b3 := RoomInfosBytes(p.rooms);
      var b2 := [|p.rooms| % 256] + b3;
      var b1 := [FlagByte(p.hasMore)] + b2;
      ResultExact(body, p.result, b1);
      U8Exact(b1, FlagByte(p.hasMore), b2);
      U8Exact(b2, |p.rooms|, b3);
      assert b3 == RoomInfosBytes(p.rooms) + [];
      RoomInfosExact(b3, |p.rooms|, 0, p.rooms, []);
    }
  }

  method WriteRoomInfo(writer: Writer, room: RoomInfo) returns (ok: bool)
    modifies writer
    ensures ok == (|room.title| <= 255)
    ensures ok ==> writer.body == old(writer.body) + RoomInfoBytes(room)
  {
    writer.U32(room.roomId);
    writer.U8(room.userCount);
    writer.U8(room.capacity);
    ok := writer.Text8(room.title);
  }

  /** The loop of the encoder: IDs must increase. */
  method WriteRoomInfos(writer: Writer, rooms: seq<RoomInfo>) returns (ok: bool)
    modifies writer
    ensures ok <==> RoomInfosOk(rooms, 0)
    ensures ok ==> writer.body == old(writer.body) + RoomInfosBytes(rooms)
  {
    hide RoomInfoBytes;
    var previousId: int := 0;
    ghost var head := writer.body;
    assert rooms[0..] == rooms;
    for i := 0 to |rooms|
      invariant RoomInfosOk(rooms, 0) <==> RoomInfosOk(rooms[i..], previousId)
      invariant writer.body + RoomInfosBytes(rooms[i..]) == head + RoomInfosBytes(rooms)
    {
      var room := rooms[i];
      assert rooms[i..][1..] == rooms[i + 1..];
      if room.roomId <= previousId || room.capacity == 0 || room.userCount > room.capacity
         || room.title == [] || |room.title| > MAX_ROOM_TITLE_BYTES {
        return false;
      }
      previousId := room.roomId;
      ghost var before := writer.body;
      var fits := WriteRoomInfo(writer, room);
      if !fits {
        return false;
      }
      AppendTwice(before, RoomInfoBytes(room), RoomInfosBytes(rooms[i + 1..]));
    }
    assert rooms[|rooms|..] == [];
    assert writer.body + [] == writer.body;
    ok := true;
  }

  method EncodeRoomList(p: RoomListResponse) returns (out: Option<Bytes>)
    ensures out == if ValidRoomList(p) then Some(RoomListBytes(p)) else None
  {
    hide RoomInfosBytes, RoomInfosOk, RoomResultCode;
    if |p.rooms| > ROOM_LIST_PAGE_SIZE {
      return None;
    }
    if p.result != RoomResult.Success && (p.rooms != [] || p.hasMore) {
      return None;
    }
    if p.hasMore && p.rooms == [] {
      return None;
    }
    var writer := new Writer();
    writer.U8(RoomResultCode(p.result));
    writer.U8(if p.hasMore then 1 else 0);
    writer.U8(|p.rooms|);
    var ok := WriteRoomInfos(writer, p.rooms);
    if !ok {
      return None;
    }
    assert writer.body == RoomListBytes(p);
    RoomListFits(p);
    out := writer.Finish();
  }

  method ReadRoomInfo(reader: Reader, previousId: int) returns (out: Option<RoomInfo>)
    requires reader.Valid()
    modifies reader
    ensures reader.Valid()
    ensures match GetRoomInfo(old(reader.Rest()), previousId)
            case Fail => out == None
            case Got(room, rest) => out == Some(room) && reader.Rest() == rest
  {
    hide GetU32, GetU8, GetText8;
    var roomId := reader.U32();
    if roomId == None {
      return None;
    }
    var userCount := reader.U8();
    if userCount == None {
      return None;
    }
    var capacity := reader.U8();
    if capacity == None {
      return None;
    }
    var title := reader.Text8();
    if title == None {
      return None;
    }
    var room := RoomInfo(roomId.value, userCount.value, capacity.value, title.value);
    if room.roomId <= previousId || room.capacity == 0 || room.userCount > room.capacity
       || room.title == [] || |room.title| > MAX_ROOM_TITLE_BYTES {
      return None;
    }
    out := Some(room);
  }

  /** The loop of the decoder. */
  method ReadRoomInfos(reader: Reader, count: nat) returns (out: Option<seq<RoomInfo>>)
    requires reader.Valid()
    modifies reader
    ensures reader.Valid()
    ensures match GetRoomInfos(old(reader.Rest()), count, 0)
            case Fail => out == None
            case Got(rooms, rest) => out == Some(rooms) && reader.Rest() == rest
  {
    hide GetRoomInfo;
    var rooms: seq<RoomInfo> := [];
    var previousId: int := 0;
    ghost var all := GetRoomInfos(reader.Rest(), count, 0);
    if all.Got? { assert [] + all.value == all.value; }
    for i := 0 to count
      invariant reader.Valid()
      invariant all == Following(rooms, GetRoomInfos(reader.Rest(), count - i, previousId))
    {
      var read := ReadRoomInfo(reader, previousId);
      if read == None {
        return None;
      }
      previousId := read.value.roomId;
      FollowingTwice(rooms, read.value, GetRoomInfos(reader.Rest(), count - i - 1, previousId));
      rooms := rooms + [read.value];
    }
    assert rooms + [] == rooms;
    out := Some(rooms);
  }

  method DecodeRoomList(body: Bytes) returns (out: Option<RoomListResponse>)
    ensures out == DecodedRoomList(body)
  {
    hide GetResult, GetU8, GetRoomInfos, Reader.Rest, Reader.Valid;
    var reader := new Reader(body);
    var result := ReadResult(reader);
    if result == None {
      return None;
    }
    var hasMore := reader.U8();
    if hasMore == None {
      return None;
    }
    var count := reader.U8();
    if count == None {
      return None;
    }
    if hasMore.value > 1 || count.value > ROOM_LIST_PAGE_SIZE {
      return None;
    }
    if result.value != RoomResult.Success && (count.value != 0 || hasMore.value != 0) {
      return None;
    }
    if hasMore.value != 0 && count.value == 0 {
      return None;
    }
    var rooms := ReadRoomInfos(reader, count.value);
    if rooms == None {
      return None;
    }
    var done := reader.Done();
    if !done {
      return None;
    }
    out := Some(RoomListResponse(result.value, hasMore.value != 0, rooms.value));
  }

  lemma FollowingTwice<T>(first: seq<T>, next: T, more: Read<seq<T>>)
    ensures Following(first, Following([next], more)) == Following(first + [next], more)
  {
    if more.Got? { assert first + ([next] + more.value) == first + [next] + more.value; }
  }

  method ReadResult(reader: Reader) returns (out: Option<RoomResult>)
    requires reader.Valid()
    modifies reader
    ensures reader.Valid()
    ensures match GetResult(old(reader.Rest()))
            case Fail => out == None
            case Got(result, rest) => out == Some(result) && reader.Rest() == rest
  {
    var value := reader.U8();
    if value == None || value.value >= |ROOM_RESULTS| {
      return None;
    }
    out := Some(ROOM_RESULTS[value.value]);
  }

  // ----- room state -----

  predicate NameOk(nickname: Bytes) {
    0 < |nickname| <= MAX_NICKNAME_BYTES
  }

  predicate PlayerOk(p: RoomStateNotification, player: RoomPlayerInfo) {
    NameOk(player.nickname) && (player.ready ==> player.nickname != p.hostNickname && p.phase == RoomPhase.Waiting)
  }

  predicate ValidRoomState(p: RoomStateNotification) {
    && p.roomId != 0 && p.capacity == ROOM_PLAYER_COUNT && 1 <= |p.players| <= ROOM_PLAYER_COUNT && NameOk(p.hostNickname)
    && (p.phase == RoomPhase.Playing ==> |p.players| == ROOM_PLAYER_COUNT && p.game != 0)
    && (forall i :: 0 <= i < |p.players| ==> PlayerOk(p, p.players[i]))
    && (forall i, j :: 0 <= i < j < |p.players| ==> p.players[i].nickname != p.players[j].nickname)
    && (exists i :: 0 <= i < |p.players| && p.players[i].nickname == p.hostNickname)
  }

  method IsValidRoomState(p: RoomStateNotification) returns (valid: bool)
    ensures valid == ValidRoomState(p)
  {
    if p.roomId == 0 || p.capacity != ROOM_PLAYER_COUNT || p.players == [] || |p.players| > ROOM_PLAYER_COUNT
       || p.hostNickname == [] || |p.hostNickname| > MAX_NICKNAME_BYTES {
      return false;
    }
    if p.phase == RoomPhase.Playing && |p.players| != ROOM_PLAYER_COUNT {
      return false;
    }
    if p.phase == RoomPhase.Playing && p.game == 0 {
      return false;
    }
    var names: set<Bytes> := {};
    var hostFound := false;
    for k := 0 to |p.players|
      invariant forall name :: name in names <==> exists i :: 0 <= i < k && p.players[i].nickname == name
      invariant hostFound <==> exists i :: 0 <= i < k && p.players[i].nickname == p.hostNickname
      invariant forall i :: 0 <= i < k ==> PlayerOk(p, p.players[i])
      invariant forall i, j :: 0 <= i < j < k ==> p.players[i].nickname != p.players[j].nickname
    {
      var player := p.players[k];
      if player.nickname == [] || |player.nickname| > MAX_NICKNAME_BYTES || player.nickname in names {
        return false;
      }
      names := names + {player.nickname};
      if player.nickname == p.hostNickname {
        hostFound := true;
        if player.ready {
          return false;
        }
      }
      if p.phase == RoomPhase.Playing && player.ready {
        return false;
      }
    }
    valid := hostFound;
  }

  function PhaseCode(phase: RoomPhase): byte {
    match phase case Waiting => 0 case Playing => 1
  }

  function PlayerBytes(p: RoomPlayerInfo): Bytes {
    Text8Bytes(p.nickname) + [FlagByte(p.ready)]
  }

  function PlayersBytes(ps: seq<RoomPlayerInfo>): Bytes {
    if ps == [] then [] else PlayerBytes(ps[0]) + PlayersBytes(ps[1..])
  }

  function RoomStateBytes(p: RoomStateNotification): Bytes {
    U32Bytes(p.roomId) + (U32Bytes(p.game) + ([PhaseCode(p.phase)] + ([p.capacity]
      + (Text8Bytes(p.hostNickname) + ([|p.players| % 256] + PlayersBytes(p.players))))))
  }

  function GetPlayer(b: Bytes): Read<RoomPlayerInfo> {
    var (nickname, b1) :- GetText8(b);
    var (ready, b2) :- GetU8(b1);
    if ready > 1 then Fail else Got(RoomPlayerInfo(nickname, ready != 0), b2)
  }

  function GetPlayers(b: Bytes, count: nat): Read<seq<RoomPlayerInfo>>
    decreases count
  {
    if count == 0 then Got([], b)
    else
      var (first, rest) :- GetPlayer(b);
      Following([first], GetPlayers(rest, count - 1))
  }

  /** Everything before the players: the room without them, and their number. */
  function GetRoomStateHead(b: Bytes): Read<(RoomStateNotification, byte)> {
    var (roomId, b1) :- GetU32(b);
    var (game, b2) :- GetU32(b1);
    var (phase, b3) :- GetU8(b2);
    var (capacity, b4) :- GetU8(b3);
    var (host, b5) :- GetText8(b4);
    var (count, b6) :- GetU8(b5);
    if phase > 1 then Fail
    else
      var named := if phase == 0 then RoomPhase.Waiting else RoomPhase.Playing;
      Got((RoomStateNotification(roomId, game, named, capacity, host, []), count), b6)
  }

  function GetRoomState(b: Bytes): Read<RoomStateNotification> {
    var (head, b1) :- GetRoomStateHead(b);
    if head.1 == 0 || head.1 > ROOM_PLAYER_COUNT then Fail
    else
      var (players, b2) :- GetPlayers(b1, head.1);
      var p := head.0.(players := players);
      if ValidRoomState(p) then Got(p, b2) else Fail
  }

  function DecodedRoomState(body: Bytes): Option<RoomStateNotification> {
    Whole(GetRoomState(body))
  }

  lemma PlayerExact(b: Bytes, p: RoomPlayerInfo, rest: Bytes)
    ensures GetPlayer(b) == Got(p, rest) <==> |p.nickname| <= 255 && b == PlayerBytes(p) + rest
  {
    hide Text8Bytes, GetText8, GetU8;
    if GetPlayer(b) == Got(p, rest) {
      var b1 := GetText8(b).rest;
      Text8Exact(b, p.nickname, b1);
      U8Exact(b1, FlagByte(p.ready), rest);
      assert b == PlayerBytes(p) + rest;
    }
    if |p.nickname| <= 255 && b == PlayerBytes(p) + rest {
      var b1 := [FlagByte(p.ready)] + rest;
      assert b == Text8Bytes(p.nickname) + b1;
      Text8Exact(b, p.nickname, b1);
      U8Exact(b1, FlagByte(p.ready), rest);
    }
  }

  predicate ShortNames(ps: seq<RoomPlayerInfo>) {
    forall i :: 0 <= i < |ps| ==> |ps[i].nickname| <= 255
  }

  lemma {:induction false} PlayersExact(b: Bytes, count: nat, ps: seq<RoomPlayerInfo>, rest: Bytes)
    ensures GetPlayers(b, count) == Got(ps, rest) <==> |ps| == count && ShortNames(ps) && b == PlayersBytes(ps) + rest
    decreases count
  {
    hide GetPlayer, PlayerBytes;
    if count > 0 {
      if GetPlayers(b, count) == Got(ps, rest) {
        var g := GetPlayer(b);
        PlayerExact(b, g.value, g.rest);
        PlayersExact(g.rest, count - 1, ps[1..], rest);
        assert ps[0] == g.value;
        assert forall i :: 0 < i < |ps| ==> ps[i] == ps[1..][i - 1];
        assert PlayerBytes(g.value) + (PlayersBytes(ps[1..]) + rest) == PlayersBytes(ps) + rest;
      }
      if |ps| == count && ShortNames(ps) && b == PlayersBytes(ps) + rest {
        var b1 := PlayersBytes(ps[1..]) + rest;
        assert b == PlayerBytes(ps[0]) + b1;
        PlayerExact(b, ps[0], b1);
        PlayersExact(b1, count - 1, ps[1..], rest);
        assert ps == [ps[0]] + ps[1..];
      }
    }
  }

  /** The bytes of the head, with count in the place of the number of players. */
  function RoomStateHeadBytes(p: RoomStateNotification, count: byte): Bytes {
    U32Bytes(p.roomId) + (U32Bytes(p.game) + ([PhaseCode(p.phase)] + ([p.capacity] + (Text8Bytes(p.hostNickname) + [count]))))
  }

  lemma RoomStateHeadExact(b: Bytes, p: RoomStateNotification, count: byte, rest: Bytes)
    requires p.players == []
    ensures GetRoomStateHead(b) == Got((p, count), rest) <==>
            |p.hostNickname| <= 255 && b == RoomStateHeadBytes(p, count) + rest
  {
    hide U32Bytes, Text8Bytes, GetU32, GetU8, GetText8;
    var c5 := [count] + rest;
    var c4 := Text8Bytes(p.hostNickname) + c5;
    var c3 := [p.capacity] + c4;
    var c2 := [PhaseCode(p.phase)] + c3;
    var c1 := U32Bytes(p.game) + c2;
    assert RoomStateHeadBytes(p, count) + rest == U32Bytes(p.roomId) + c1;
    if GetRoomStateHead(b) == Got((p, count), rest) {
      var b1 := GetU32(b).rest;
      var b2 := GetU32(b1).rest;
      var b3 := GetU8(b2).rest;
      var b4 := GetU8(b3).rest;
      var b5 := GetText8(b4).rest;
      U32Exact(b, p.roomId, b1);
      U32Exact(b1, p.game, b2);
      U8Exact(b2, PhaseCode(p.phase), b3);
      U8Exact(b3, p.capacity, b4);
      Text8Exact(b4, p.hostNickname, b5);
      U8Exact(b5, count, rest);
    }
    if |p.hostNickname| <= 255 && b == RoomStateHeadBytes(p, count) + rest {
      U32Exact(b, p.roomId, c1);
      U32Exact(c1, p.game, c2);
      U8Exact(c2, PhaseCode(p.phase), c3);
      U8Exact(c3, p.capacity, c4);
      Text8Exact(c4, p.hostNickname, c5);
      U8Exact(c5, count, rest);
    }
  }

  lemma HeadHasNoPlayers(b: Bytes)
    ensures GetRoomStateHead(b).Got? ==> GetRoomStateHead(b).value.0.players == []
  {
  }

  lemma RoomStateParts(p: RoomStateNotification)
    requires |p.players| <= 255
    ensures RoomStateBytes(p) == RoomStateHeadBytes(p.(players := []), |p.players|) + PlayersBytes(p.players)
  {
    hide U32Bytes, Text8Bytes, PlayersBytes;
  }

  lemma ValidNamesAreShort(p: RoomStateNotification)
    requires ValidRoomState(p)
    ensures ShortNames(p.players) && |p.hostNickname| <= 255 && 1 <= |p.players| <= ROOM_PLAYER_COUNT
  {
    forall i | 0 <= i < |p.players| ensures |p.players[i].nickname| <= 255 {
      assert PlayerOk(p, p.players[i]);
    }
  }

  /** The room-state codec is exact, like the room-list codec. */
  lemma RoomStateExact(body: Bytes, p: RoomStateNotification)
    ensures DecodedRoomState(body) == Some(p) <==> ValidRoomState(p) && body == RoomStateBytes(p)
  {
    hide GetRoomStateHead, GetPlayers, PlayersBytes, RoomStateBytes, RoomStateHeadBytes, ValidRoomState;
    if DecodedRoomState(body) == Some(p) {
      var g := GetRoomStateHead(body);
      var b1 := g.rest;
      var count := g.value.1;
      PlayersExact(b1, count, p.players, []);
      assert g.value.0.(players := p.players) == p;
      HeadHasNoPlayers(body);
      RoomStateHeadExact(body, p.(players := []), count, b1);
      PlayersExact(b1, |p.players|, p.players, []);
      RoomStateParts(p);
      assert PlayersBytes(p.players) + [] == PlayersBytes(p.players);
    }
    if ValidRoomState(p) && body == RoomStateBytes(p) {
      ValidNamesAreShort(p);
      var b1 := PlayersBytes(p.players);
      RoomStateParts(p);
      RoomStateHeadExact(body, p.(players := []), |p.players|, b1);
      assert b1 + [] == b1;
      PlayersExact(b1, |p.players|, p.players, []);
      assert p.(players := []).(players := p.players) == p;
    }
  }

  lemma RoomStateFits(p: RoomStateNotification)
    requires ValidRoomState(p)
    ensures |RoomStateBytes(p)| <= MAX_BODY_SIZE
  {
    hide U32Bytes, Text8Bytes, PlayersBytes;
    ValidNamesAreShort(p);
    PlayersAreShort(p.players);
    assert |U32Bytes(p.roomId)| == |U32Bytes(p.game)| == 4 by { U32IsFourBytes(p.roomId); U32IsFourBytes(p.game); }
    assert |Text8Bytes(p.hostNickname)| == 1 + |p.hostNickname| by { TextLength(p.hostNickname); }
  }

  lemma TextLength(text: Bytes)
    ensures |Text8Bytes(text)| == 1 + |text|
  {
  }

  lemma {:induction false} PlayersAreShort(ps: seq<RoomPlayerInfo>)
    requires ShortNames(ps)
    ensures |PlayersBytes(ps)| <= |ps| * 257
    decreases |ps|
  {
    if ps != [] {
      PlayersAreShort(ps[1..]);
    }
  }

  method WritePlayers(writer: Writer, players: seq<RoomPlayerInfo>) returns (ok: bool)
    modifies writer
    ensures ok <==> ShortNames(players)
    ensures ok ==> writer.body == old(writer.body) + PlayersBytes(players)
  {
    hide Text8Bytes;
    ghost var head := writer.body;
    assert players[0..] == players;
    for i := 0 to |players|
      invariant ShortNames(players[..i])
      invariant writer.body + PlayersBytes(players[i..]) == head + PlayersBytes(players)
    {
      ghost var before := writer.body;
      assert players[i..][1..] == players[i + 1..];
      var fits := writer.Text8(players[i].nickname);
      if !fits {
        return false;
      }
      writer.U8(if players[i].ready then 1 else 0);
      assert writer.body == before + PlayerBytes(players[i]);
      AppendTwice(before, PlayerBytes(players[i]), PlayersBytes(players[i + 1..]));
    }
    assert players[|players|..] == [] && players[..|players|] == players;
    assert writer.body + [] == writer.body;
    ok := true;
  }

  /** Parts appended one by one are the parts nested to the right. */
  lemma SevenParts(a: Bytes, b: Bytes, c: Bytes, d: Bytes, e: Bytes, f: Bytes, g: Bytes)
    ensures [] + a + b + c + d + e + f + g == a + (b + (c + (d + (e + (f + g)))))
  {
    assert d + (e + (f + g)) == d + e + f + g;
    assert [] + a + b + c == a + (b + c);
  }

  method EncodeRoomState(p: RoomStateNotification) returns (out: Option<Bytes>)
    ensures out == if ValidRoomState(p) then Some(RoomStateBytes(p)) else None
  {
    hide ValidRoomState, PlayersBytes, U32Bytes, Text8Bytes;
    var valid := IsValidRoomState(p);
    if !valid {
      return None;
    }
    ValidNamesAreShort(p);
    var writer := new Writer();
    writer.U32(p.roomId);
    writer.U32(p.game);
    writer.U8(PhaseCode(p.phase));
    writer.U8(p.capacity);
    var hostFits := writer.Text8(p.hostNickname);
    if !hostFits {
      return None;
    }
    writer.U8(|p.players|);
    var ok := WritePlayers(writer, p.players);
    if !ok {
      return None;
    }
    assert writer.body == RoomStateBytes(p) by {
      SevenParts(U32Bytes(p.roomId), U32Bytes(p.game), [PhaseCode(p.phase)], [p.capacity], Text8Bytes(p.hostNickname),
                 [|p.players| % 256], PlayersBytes(p.players));
    }
    RoomStateFits(p);
    out := writer.Finish();
  }

  method ReadPlayers(reader: Reader, count: nat) returns (out: Option<seq<RoomPlayerInfo>>)
    requires reader.Valid()
    modifies reader
    ensures reader.Valid()
    ensures match GetPlayers(old(reader.Rest()), count)
            case Fail => out == None
            case Got(players, rest) => out == Some(players) && reader.Rest() == rest
  {
    hide GetU8, GetText8;
    var players: seq<RoomPlayerInfo> := [];
    ghost var all := GetPlayers(reader.Rest(), count);
    if all.Got? { assert [] + all.value == all.value; }
    for i := 0 to count
      invariant reader.Valid()
      invariant all == Following(players, GetPlayers(reader.Rest(), count - i))
    {
      var nickname := reader.Text8();
      if nickname == None {
        return None;
      }
      var ready := reader.U8();
      if ready == None || ready.value > 1 {
        return None;
      }
      var player := RoomPlayerInfo(nickname.value, ready.value != 0);
      FollowingTwice(players, player, GetPlayers(reader.Rest(), count - i - 1));
      players := players + [player];
    }
    assert players + [] == players;
    out := Some(players);
  }

  method ReadRoomStateHead(reader: Reader) returns (out: Option<(RoomStateNotification, byte)>)
    requires reader.Valid()
    modifies reader
    ensures reader.Valid()
    ensures match GetRoomStateHead(old(reader.Rest()))
            case Fail => out == None
            case Got(head, rest) => out == Some(head) && reader.Rest() == rest
  {
    hide GetU32, GetU8, GetText8;
    var roomId := reader.U32();
    if roomId == None { return None; }
    var game := reader.U32();
    if game == None { return None; }
    var phase := reader.U8();
    if phase == None { return None; }
    var capacity := reader.U8();
    if capacity == None { return None; }
    var host := reader.Text8();
    if host == None { return None; }
    var count := reader.U8();
    if count == None || phase.value > 1 { return None; }
    var named := if phase.value == 0 then RoomPhase.Waiting else RoomPhase.Playing;
    out := Some((RoomStateNotification(roomId.value, game.value, named, capacity.value, host.value, []), count.value));
  }

  method DecodeRoomState(body: Bytes) returns (out: Option<RoomStateNotification>)
    ensures out == DecodedRoomState(body)
  {
    hide GetRoomStateHead, GetPlayers, ValidRoomState;
    var reader := new Reader(body);
    var head := ReadRoomStateHead(reader);
    if head == None || head.value.1 == 0 || head.value.1 > ROOM_PLAYER_COUNT {
      return None;
    }
    var players := ReadPlayers(reader, head.value.1);
    if players == None {
      return None;
    }
    var p := head.value.0.(players := players.value);
    var done := reader.Done();
    var valid := IsValidRoomState(p);
    out := if done && valid then Some(p) else None;
  }

  // ----- responses and notifications of fixed shape -----

  function RoomActionBytes(p: RoomActionResponse): Bytes {
    [RoomResultCode(p.result)] + U32Bytes(p.roomId)
  }

  function GetRoomAction(b: Bytes): Read<RoomActionResponse> {
    var (result, b1) :- GetResult(b);
    var (roomId, b2) :- GetU32(b1);
    if (result == RoomResult.Success) != (roomId != 0) then Fail else Got(RoomActionResponse(result, roomId), b2)
  }

  function DecodedRoomAction(body: Bytes): Option<RoomActionResponse> {
    Whole(GetRoomAction(body))
  }

  /** The encoder sends any response, but only a success with a room or a failure
      without one is read back: exactly those complete the round trip. */
  lemma RoomActionRoundTrip(p: RoomActionResponse)
    ensures DecodedRoomAction(RoomActionBytes(p)) == Some(p) <==> (p.result == RoomResult.Success <==> p.roomId != 0)
    ensures DecodedRoomAction(RoomActionBytes(RoomActionResponse(RoomResult.Success, 0))) == None
  {
    hide GetResult, GetU32, U32Bytes;
    ResultExact(RoomActionBytes(p), p.result, U32Bytes(p.roomId));
    U32Exact(U32Bytes(p.roomId), p.roomId, []);
    ResultExact(RoomActionBytes(RoomActionResponse(RoomResult.Success, 0)), RoomResult.Success, U32Bytes(0));
    U32Exact(U32Bytes(0), 0, []);
    assert U32Bytes(p.roomId) + [] == U32Bytes(p.roomId) && U32Bytes(0) + [] == U32Bytes(0);
  }

  predicate ValidRoomMember(p: RoomMemberNotification) {
    p.roomId != 0 && NameOk(p.nickname)
  }

  function RoomMemberBytes(p: RoomMemberNotification): Bytes {
    U32Bytes(p.roomId) + [match p.change case Joined => 1 case Left => 2 case Disconnected => 3] + Text8Bytes(p.nickname)
  }

  // ----- requests -----

  function DecodedTitle(body: Bytes): Option<Bytes> {
    Whole(GetText8(body))
  }

  function DecodedRoomId(body: Bytes): Option<uint32> {
    Whole(GetU32(body))
  }

  function DecodedReady(body: Bytes): Option<bool> {
    if |body| == 1 && body[0] <= 1 then Some(body[0] != 0) else None
  }
}
