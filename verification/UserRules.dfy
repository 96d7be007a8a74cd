/** The user table as a value: two maps that must stay inverse to each other
    (ChatServerFolder/LogicLib/UserManager.cpp). */
module UserRules {
  import opened Protocol

  datatype UserState = Lobby | InRoom

  datatype User = User(session: SessionId, nickname: Bytes, state: UserState, roomId: RoomId)

  datatype UserTable = UserTable(bySession: map<SessionId, User>, byNickname: map<Bytes, SessionId>)

  const NO_USERS: UserTable := UserTable(map[], map[])

  /** A letter, a digit or an underscore. */
  predicate IsNicknameByte(c: byte) {
    'A' as int <= c <= 'Z' as int || 'a' as int <= c <= 'z' as int || '0' as int <= c <= '9' as int || c == '_' as int
  }

  predicate IsValidNickname(nickname: Bytes) {
    0 < |nickname| <= MAX_NICKNAME_BYTES && forall i :: 0 <= i < |nickname| ==> IsNicknameByte(nickname[i])
  }

  function Login(t: UserTable, session: SessionId, nickname: Bytes): (UserTable, LoginResult) {
    if session in t.bySession then (t, LoginResult.AlreadyLoggedIn)
    else if !IsValidNickname(nickname) then (t, LoginResult.InvalidNickname)
    else if nickname in t.byNickname then (t, LoginResult.NicknameInUse)
    else (UserTable(t.bySession[session := User(session, nickname, UserState.Lobby, INVALID_ROOM_ID)],
                    t.byNickname[nickname := session]), LoginResult.Success)
  }

  function Remove(t: UserTable, session: SessionId): UserTable {
    if session !in t.bySession then t
    else UserTable(t.bySession - {session}, t.byNickname - {t.bySession[session].nickname})
  }

  function SeatIn(t: UserTable, session: SessionId, roomId: RoomId): UserTable
    requires session in t.bySession
  {
    t.(bySession := t.bySession[session := t.bySession[session].(state := UserState.InRoom, roomId := roomId)])
  }

  function BackToLobby(t: UserTable, session: SessionId): UserTable
    requires session in t.bySession
  {
    t.(bySession := t.bySession[session := t.bySession[session].(state := UserState.Lobby, roomId := INVALID_ROOM_ID)])
  }

  ghost predicate UserInv(session: SessionId, u: User) {
    session != 0 && u.session == session && IsValidNickname(u.nickname)
    && (u.state == UserState.Lobby <==> u.roomId == INVALID_ROOM_ID)
  }

  /** Sound entries, and each map is the inverse of the other. */
  ghost predicate UsersInv(t: UserTable) {
    && (forall s :: s in t.bySession ==> UserInv(s, t.bySession[s]))
    && (forall s :: s in t.bySession ==>
          t.bySession[s].nickname in t.byNickname && t.byNickname[t.bySession[s].nickname] == s)
    && (forall n :: n in t.byNickname ==>
          t.byNickname[n] in t.bySession && t.bySession[t.byNickname[n]].nickname == n)
  }

  lemma LoginKeepsUsersInv(t: UserTable, session: SessionId, nickname: Bytes)
    requires UsersInv(t) && session != 0
    ensures UsersInv(Login(t, session, nickname).0)
  {
  }

  /** A login succeeds exactly when the session is not logged in, the name is valid and no user
      has it, each refusal for its own reason; then the user is in the lobby under that name, and
      nobody else is touched. */
  lemma LoginVerdict(t: UserTable, session: SessionId, nickname: Bytes)
    requires UsersInv(t)
    ensures var (u, result) := Login(t, session, nickname);
            && (result == LoginResult.Success <==>
                  && session !in t.bySession && IsValidNickname(nickname)
                  && forall s :: s in t.bySession ==> t.bySession[s].nickname != nickname)
            && (result == LoginResult.AlreadyLoggedIn <==> session in t.bySession)
            && (result == LoginResult.InvalidNickname <==> session !in t.bySession && !IsValidNickname(nickname))
            && (result != LoginResult.Success ==> u == t)
            && (result == LoginResult.Success ==>
                  && u.bySession.Keys == t.bySession.Keys + {session}
                  && u.bySession[session] == User(session, nickname, UserState.Lobby, INVALID_ROOM_ID)
                  && forall s :: s in t.bySession ==> u.bySession[s] == t.bySession[s])
  {
    if nickname in t.byNickname {
      assert t.bySession[t.byNickname[nickname]].nickname == nickname;
    }
  }

  /** No two sessions share a nickname. */
  lemma NicknamesDiffer(t: UserTable, s1: SessionId, s2: SessionId)
    requires UsersInv(t) && s1 in t.bySession && s2 in t.bySession && s1 != s2
    ensures t.bySession[s1].nickname != t.bySession[s2].nickname
  {
  }

  lemma RemoveKeepsUsersInv(t: UserTable, session: SessionId)
    requires UsersInv(t)
    ensures UsersInv(Remove(t, session)) && session !in Remove(t, session).bySession
  {
    if session in t.bySession {
      forall s | s in t.bySession && s != session ensures t.bySession[s].nickname != t.bySession[session].nickname {
        NicknamesDiffer(t, s, session);
      }
    }
  }

  /** A nickname is free again as soon as its owner is removed. */
  lemma RemoveFreesTheNickname(t: UserTable, session: SessionId, other: SessionId)
    requires UsersInv(t) && session in t.bySession && other !in t.bySession
    ensures Login(Remove(t, session), other, t.bySession[session].nickname).1 == LoginResult.Success
  {
  }

  /** Sitting down and going back to the lobby touch one entry's room only. */
  lemma MovingKeepsUsersInv(t: UserTable, session: SessionId, roomId: RoomId)
    requires UsersInv(t) && session in t.bySession && roomId != INVALID_ROOM_ID
    ensures UsersInv(SeatIn(t, session, roomId)) && UsersInv(BackToLobby(t, session))
  {
  }
}
