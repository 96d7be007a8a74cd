/** The room object of ChatServerFolder/LogicLib/Room.cpp with the game it embeds,
    specified by the rules. */
module Rooms {
  import opened Protocol
  import opened OmokRules
  import opened OmokGames
  import opened RoomRules

  class Room {
    const id: RoomId
    const title: Bytes
    const capacity: nat
    const turnTime: Time
    const game: OmokGame
    var members: seq<SessionId>
    var host: SessionId
    var phase: RoomPhase
    var readyMembers: set<SessionId>
    var black: SessionId
    var white: SessionId
    var deadline: Time
    var gameId: GameId

    ghost predicate Valid()
      reads game, game.board
    {
      game.Valid()
    }

    ghost function Model(): RoomState
      reads this, game
    {
      RoomState(id, title, capacity, members, host, phase, readyMembers, game.Model(), black, white, turnTime, deadline, gameId)
    }

    /** The source throws when these arguments are wrong; the caller checks them first. */
    constructor (id: RoomId, title: Bytes, capacity: nat, creator: SessionId, turnTime: Time)
      requires CanBuild(id, capacity, creator, turnTime)
      ensures Valid() && this.id == id && fresh(game) && fresh(game.board)
      ensures Model() == NewRoom(id, title, capacity, creator, turnTime)
    {
      this.id, this.title, this.capacity, this.turnTime := id, title, capacity, turnTime;
      members := [creator];
      host := creator;
      phase, readyMembers := RoomPhase.Waiting, {};
      game := new OmokGame();
      black, white, deadline, gameId := 0, 0, 0, 0;
    }

    function Contains(session: SessionId): bool
      reads this
    {
      session in members
    }

    function GetPlayerStone(session: SessionId): (stone: GameStone)
      reads this, game
      ensures stone == PlayerStone(Model(), session)
    {
      if session == 0 then GameStone.Empty
      else if session == black then GameStone.Black
      else if session == white then GameStone.White
      else GameStone.Empty
    }

    function IsTurnExpired(now: Time): (expired: bool)
      reads this, game
      ensures expired == RoomRules.IsTurnExpired(Model(), now)
    {
      phase == RoomPhase.Playing && game.status == GameState.Playing && now >= deadline
    }

    /** The position of a member, or the number of members. */
    method FindMember(session: SessionId) returns (it: nat)
      ensures it <= |members| && (it < |members| <==> session in members)
      ensures it < |members| ==> members[..it] + members[it + 1..] == Erase(members, session)
    {
      it := 0;
      assert members[0..] == members;
      while it < |members| && members[it] != session
        invariant it <= |members| && session !in members[..it]
        invariant members[..it] + Erase(members[it..], session) == Erase(members, session)
      {
        assert members[it..][0] == members[it] && members[it..][1..] == members[it + 1..];
        assert members[..it] + ([members[it]] + Erase(members[it + 1..], session)) == members[..it + 1] + Erase(members[it + 1..], session);
        it := it + 1;
      }
      if it < |members| {
        assert members[it..][0] == session && members[it..][1..] == members[it + 1..];
      }
    }

    method RemoveMember(session: SessionId) returns (ok: bool)
      requires Valid()
      modifies this, game, game.board
      ensures Valid()
      ensures (Model(), ok) == RoomRules.RemoveMember(old(Model()), session)
    {
      var it := FindMember(session);
      if it == |members| {
        return false;
      }
      members := members[..it] + members[it + 1..];
      phase, readyMembers := RoomPhase.Waiting, {};
      game.Reset();
      black, white, deadline := 0, 0, 0;
      if members == [] {
        host := 0;
      } else if host == session {
        host := members[0];
      }
      return true;
    }

    method AddMember(session: SessionId) returns (ok: bool)
      modifies this
      ensures (Model(), ok) == RoomRules.AddMember(old(Model()), session)
    {
      if phase != RoomPhase.Waiting || session == 0 || Contains(session) || |members| >= capacity {
        return false;
      }
      members := members + [session];
      readyMembers := {};
      return true;
    }

    method SetReady(session: SessionId, ready: bool)
      modifies this
      ensures Model() == RoomRules.SetReady(old(Model()), session, ready)
    {
      if ready {
        readyMembers := readyMembers + {session};
      } else {
        readyMembers := readyMembers - {session};
      }
    }

    method Forfeit(loser: GameStone) returns (ok: bool)
      requires Valid()
      modifies game
      ensures Valid()
      ensures (Model(), ok) == RoomRules.Forfeit(old(Model()), loser)
    {
      ok := game.Forfeit(loser);
    }

    method FinishGame()
      modifies this
      ensures Model() == RoomRules.FinishGame(old(Model()))
    {
      phase, readyMembers, deadline := RoomPhase.Waiting, {}, 0;
    }

    method StartGame(newGameId: GameId, now: Time)
      requires Valid()
      modifies this, game, game.board
      ensures Valid()
      ensures Model() == RoomRules.StartGame(old(Model()), newGameId, now)
    {
      gameId := newGameId;
      black, white := host, 0;
      assert members[0..] == members;
      for i := 0 to |members|
        invariant white == 0 && FirstGuest(members, host) == FirstGuest(members[i..], host)
      {
        assert members[i..][1..] == members[i + 1..];
        if members[i] != host {
          white := members[i];
          break;
        }
      }
      assert white == FirstGuest(members, host);
      game.Start();
      phase, readyMembers := RoomPhase.Playing, {};
      deadline := now + turnTime;
    }

    method PlaceStone(session: SessionId, x: int, y: int, now: Time) returns (result: MoveResult)
      requires Valid()
      modifies this, game, game.board
      ensures Valid()
      ensures (Model(), result) == RoomRules.PlaceStone(old(Model()), session, x, y, now)
    {
      hide TryPlaceStone;
      if phase != RoomPhase.Playing {
        return MoveResult.GameNotRunning;
      }
      var stone := GetPlayerStone(session);
      if stone == GameStone.Empty {
        return MoveResult.InvalidStone;
      }
      result := game.TryPlaceStone(stone, x, y);
      if result == MoveResult.Success && game.status == GameState.Playing {
        deadline := now + turnTime;
      }
    }
  }
}
