/** The user manager object of ChatServerFolder/LogicLib/UserManager.cpp: two maps
    updated in place, specified by the rules. */
module UserManagers {
  import opened Protocol
  import opened UserRules

  class UserManager {
    var users: map<SessionId, User>
    var sessionByNickname: map<Bytes, SessionId>

    ghost function Table(): UserTable
      reads this
    {
      UserTable(users, sessionByNickname)
    }

    constructor ()
      ensures Table() == NO_USERS
    {
      users, sessionByNickname := map[], map[];
    }

    method IsValidNickname(nickname: Bytes) returns (valid: bool)
      ensures valid == UserRules.IsValidNickname(nickname)
    {
      if nickname == [] || |nickname| > MAX_NICKNAME_BYTES {
        return false;
      }
      for i := 0 to |nickname|
        invariant forall j :: 0 <= j < i ==> IsNicknameByte(nickname[j])
      {
        var ch := nickname[i];
        var allowed := ('A' as int <= ch <= 'Z' as int) || ('a' as int <= ch <= 'z' as int)
                       || ('0' as int <= ch <= '9' as int) || ch == '_' as int;
        if !allowed {
          return false;
        }
      }
      return true;
    }

    method Login(session: SessionId, nickname: Bytes) returns (result: LoginResult)
      modifies this
      ensures (Table(), result) == UserRules.Login(old(Table()), session, nickname)
    {
      if session in users {
        return LoginResult.AlreadyLoggedIn;
      }
      var valid := IsValidNickname(nickname);
      if !valid {
        return LoginResult.InvalidNickname;
      }
      if nickname in sessionByNickname {
        return LoginResult.NicknameInUse;
      }
      users := users[session := User(session, nickname, UserState.Lobby, INVALID_ROOM_ID)];
      sessionByNickname := sessionByNickname[nickname := session];
      return LoginResult.Success;
    }

    function Find(session: SessionId): (user: Option<User>)
      reads this
      ensures user.Some? <==> session in users
      ensures user.Some? ==> user.value == users[session]
    {
      if session in users then Some(users[session]) else None
    }

    method Remove(session: SessionId)
      modifies this
      ensures Table() == UserRules.Remove(old(Table()), session)
    {
      if session !in users {
        return;
      }
      sessionByNickname := sessionByNickname - {users[session].nickname};
      users := users - {session};
    }

    method EnterRoom(session: SessionId, roomId: RoomId)
      requires session in users
      modifies this
      ensures Table() == SeatIn(old(Table()), session, roomId)
    {
      users := users[session := users[session].(roomId := roomId, state := UserState.InRoom)];
    }

    method ReturnToLobby(session: SessionId)
      requires session in users
      modifies this
      ensures Table() == BackToLobby(old(Table()), session)
    {
      users := users[session := users[session].(roomId := INVALID_ROOM_ID, state := UserState.Lobby)];
    }
  }
}
