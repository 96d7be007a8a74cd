/** What every request makes the server send: which packets, to whom, in which order. */
module Transcripts {
  import opened Protocol
  import opened Framing
  import opened NetRules
  import opened NetInvariant
  import opened RoomRules
  import opened LobbyRules
  import opened LobbyInvariant
  import opened LobbyCalls
  import opened WireFormat
  import opened RoomPacketCodec
  import opened GamePacketCodec
  import opened ServerRules
  import opened ServerInvariant
  import opened Encodability
  import opened Overtaking
  import Delivery
  import Replica

  /** One packet for some sessions. */
  datatype Sending = Sending(targets: seq<SessionId>, packet: Packet)

  /** What a session gets of all that is sent, in order. */
  function PacketsFor(out: seq<Sending>, c: SessionId): seq<Packet> {
    if out == [] then []
    else
      var front, last := PacketsFor(out[..|out| - 1], c), out[|out| - 1];
      if c in last.targets then front + [last.packet] else front
  }

  /** Everybody who is still connected in m has been sent exactly its part since n, in order and
      behind all that was queued for it before. */
  ghost predicate IsSent(n: NetState, m: NetState, out: seq<Sending>) {
    forall c: SessionId :: IsConnected(m, c) ==>
      c in n.queued && c in m.queued && m.queued[c] == n.queued[c] + PacketsFor(out, c)
  }

  /** And all the rest of the network is in order. */
  ghost predicate Sends(n: NetState, m: NetState, out: seq<Sending>) {
    NetInv(m) && Quiet(n, m) && IsSent(n, m, out)
  }

  lemma {:induction false} PacketsForMore(out: seq<Sending>, more: seq<Sending>, c: SessionId)
    ensures PacketsFor(out + more, c) == PacketsFor(out, c) + PacketsFor(more, c)
    decreases |more|
  {
    if more == [] {
      assert out + more == out;
    } else {
      var front := more[..|more| - 1];
      assert (out + more)[..|out + more| - 1] == out + front;
      PacketsForMore(out, front, c);
    }
  }

  lemma SendsTwice(a: NetState, b: NetState, c: NetState, out: seq<Sending>, more: seq<Sending>)
    requires Sends(a, b, out) && Sends(b, c, more)
    ensures Sends(a, c, out + more)
  {
    hide NetInvBut, IsConnected, Passes;
    QuietTwice(a, b, c);
    forall s: SessionId | IsConnected(c, s)
      ensures s in a.queued && s in c.queued && c.queued[s] == a.queued[s] + PacketsFor(out + more, s)
    {
      PacketsForMore(out, more, s);
    }
  }

  lemma OpenIsLogged(n: NetState, c: SessionId)
    requires NetInv(n) && IsConnected(n, c)
    ensures c in n.queued
  {
    hide QueueInv, IdsInv, StagesInv, LogsInv;
  }

  lemma SendsNothing(n: NetState, m: NetState)
    requires NetInv(n) && NetInv(m) && Quiet(n, m) && m.queued == n.queued
    ensures Sends(n, m, [])
  {
    hide NetInvBut, IsConnected, Passes;
    forall c: SessionId | IsConnected(m, c) ensures c in n.queued { OpenIsLogged(m, c); }
  }

  lemma StaysSilent(n: NetState)
    requires NetInv(n)
    ensures Sends(n, n, [])
  {
    hide NetInvBut, Sends;
    StaysQuiet(n);
    SendsNothing(n, n);
  }

  // ----- sending -----

  lemma OnePacketFor(targets: seq<SessionId>, p: Packet, c: SessionId)
    ensures PacketsFor([Sending(targets, p)], c) == if c in targets then [p] else []
  {
    assert [Sending(targets, p)][..0] == [];
  }

  lemma RespondSends(n: NetState, session: SessionId, id: nat, body: Bytes)
    requires NetInv(n) && id <= UINT16_MAX
    ensures Sends(n, Respond(n, session, id, body), [Sending([session], Packet(id, body))])
  {
    hide NetInvBut, IsConnected, SendPacket, Quiet, PacketsFor, Delivery.Unsent;
    var m, p := Respond(n, session, id, body), Packet(id, body);
    RespondIsQuiet(n, session, id, body);
    Delivery.QueueLaw(n, session, id, body);
    DisconnectIsQuiet(n, session);
    forall c: SessionId | IsConnected(m, c)
      ensures c in n.queued && c in m.queued && m.queued[c] == n.queued[c] + PacketsFor([Sending([session], p)], c)
    {
      OpenIsLogged(m, c);
      OnePacketFor([session], p, c);
    }
  }

  lemma BroadcastTail(targets: seq<SessionId>, p: Packet, c: SessionId)
    requires targets != [] && Distinct(targets)
    ensures PacketsFor([Sending(targets, p)], c) ==
              PacketsFor([Sending([targets[0]], p)], c) + PacketsFor([Sending(targets[1..], p)], c)
  {
    OnePacketFor(targets, p, c);
    OnePacketFor([targets[0]], p, c);
    OnePacketFor(targets[1..], p, c);
    assert targets == [targets[0]] + targets[1..];
  }

  lemma {:induction false} BroadcastSends(n: NetState, targets: seq<SessionId>, id: nat, body: Bytes)
    requires NetInv(n) && id <= UINT16_MAX && Distinct(targets)
    ensures Sends(n, Broadcast(n, targets, id, body), [Sending(targets, Packet(id, body))])
    decreases |targets|
  {
    hide NetInvBut, IsConnected, Respond, Passes, PacketsFor;
    var m, p := Broadcast(n, targets, id, body), Packet(id, body);
    StaysSilent(n);
    if targets == [] {
      forall c: SessionId ensures PacketsFor([Sending([], p)], c) == [] { OnePacketFor([], p, c); }
      StaysSilentFor(n, p);
    } else {
      RespondSends(n, targets[0], id, body);
      var first := if IsConnected(n, targets[0]) then Respond(n, targets[0], id, body) else n;
      BroadcastSends(first, targets[1..], id, body);
      QuietTwice(n, first, m);
      forall c: SessionId | IsConnected(m, c)
        ensures c in n.queued && c in m.queued && m.queued[c] == n.queued[c] + PacketsFor([Sending(targets, p)], c)
      {
        BroadcastTail(targets, p, c);
        OnePacketFor([targets[0]], p, c);
        OpenIsLogged(m, c);
      }
    }
  }

  lemma StaysSilentFor(n: NetState, p: Packet)
    requires Sends(n, n, [])
    ensures Sends(n, n, [Sending([], p)])
  {
    hide NetInvBut, IsConnected, Passes;
    forall c: SessionId ensures PacketsFor([Sending([], p)], c) == PacketsFor([], c) { OnePacketFor([], p, c); }
  }

  // ----- notifications -----

  /** The members of the room are told how it is now. */
  ghost function StateNotice(s: LobbyState, id: RoomId): seq<Sending> {
    if id in s.rooms then [Sending(s.rooms[id].members, NoticeOf(s, id))] else []
  }

  /** They are told that somebody came, left or is gone, and then how the room is now. */
  ghost function BothNotices(s: LobbyState, id: RoomId, change: RoomMemberChange, nickname: Bytes): seq<Sending> {
    if id in s.rooms then
      [Sending(s.rooms[id].members, Packet(ROOM_MEMBER_NTF, RoomMemberBytes(RoomMemberNotification(ToU32(id), change, nickname)))),
       Sending(s.rooms[id].members, NoticeOf(s, id))]
    else []
  }

  lemma StateNoticeSends(s: Server, id: RoomId)
    requires Sound(s)
    ensures Sends(s.net, NotifyRoomState(s, id).net, StateNotice(s.run.lobby, id))
  {
    hide NetInvBut, RunInv, Broadcast, RoomStateBytes, SnapshotOf, ValidRoomState, DecodedRoomState, Sends;
    if id in s.run.lobby.rooms {
      RoomStateGoesOut(s, id);
      MembersAreDistinct(s.run, id);
      BroadcastSends(s.net, s.run.lobby.rooms[id].members, ROOM_STATE_NTF, NoticeOf(s.run.lobby, id).body);
    } else {
      StaysSilent(s.net);
    }
  }

  lemma BothNoticesSend(s: Server, id: RoomId, change: RoomMemberChange, nickname: Bytes)
    requires Sound(s) && NameOk(nickname)
    ensures Sends(s.net, NotifyRoomState(NotifyRoomMember(s, id, change, nickname), id).net,
                  BothNotices(s.run.lobby, id, change, nickname))
  {
    hide NetInvBut, RunInv, Broadcast, RoomMemberBytes, Sends, NotifyRoomState, NoticeOf, NameOk, LobbyInv;
    if id in s.run.lobby.rooms {
      MemberNoticeGoesOut(s, id, change, nickname);
      MembersAreDistinct(s.run, id);
      var p := Packet(ROOM_MEMBER_NTF, RoomMemberBytes(RoomMemberNotification(ToU32(id), change, nickname)));
      RoomIdFits(s.run, id);
      BroadcastSends(s.net, s.run.lobby.rooms[id].members, ROOM_MEMBER_NTF, p.body);
      var u := NotifyRoomMember(s, id, change, nickname);
      NotifyRoomMemberIsCalm(s, id, change, nickname);
      CalmIsSound(s, u);
      StateNoticeSends(u, id);
      SendsTwice(s.net, u.net, NotifyRoomState(u, id).net, [Sending(s.run.lobby.rooms[id].members, p)], StateNotice(s.run.lobby, id));
      assert [Sending(s.run.lobby.rooms[id].members, p)] + StateNotice(s.run.lobby, id) == BothNotices(s.run.lobby, id, change, nickname);
    } else {
      NoRoomNoNotice(s, id);
      StaysSilent(s.net);
    }
  }

  lemma RoomIdFits(run: Run, id: RoomId)
    requires RunInv(run) && id in run.lobby.rooms
    ensures ToU32(id) == id
  {
    hide RunInv;
    Replica.IdsFit(run, id);
    Unchanged32(id);
  }

  lemma SameSnapshot(s: LobbyState, t: LobbyState, id: RoomId)
    requires t.rooms == s.rooms && t.users == s.users
    ensures NoticeOf(t, id) == NoticeOf(s, id)
  {
    hide RoomStateBytes, PlayersOf;
    if id in s.rooms { SamePlayers(s, t, s.rooms[id], s.rooms[id].members); }
  }

  lemma {:induction false} SamePlayers(s: LobbyState, t: LobbyState, r: RoomState, members: seq<SessionId>)
    requires t.users == s.users
    ensures PlayersOf(t, r, members) == PlayersOf(s, r, members)
    decreases |members|
  {
    if members != [] { SamePlayers(s, t, r, members[1..]); }
  }

  lemma TargetsOf(run: Run, f: FinishedGame)
    requires RunInv(run) && run.lobby.finished != [] && f == run.lobby.finished[0]
    ensures Distinct(f.targets) && f in History(run)
  {
    hide LobbyInv, ClocksInv;
    assert History(run)[|run.popped|] == f;
    assert SoundRecord(f);
  }

  lemma PoppedNet(s: Server)
    requires s.run.lobby.finished != []
    ensures Popped(s).net == s.net && |Popped(s).run.lobby.finished| == |s.run.lobby.finished| - 1
  {
  }

  /** The results are announced one after the other to their players, each followed by how its
      room is now. */
  ghost function Announcements(s: LobbyState, records: seq<FinishedGame>): seq<Sending> {
    if records == [] then []
    else
      [Sending(records[0].targets, Packet(GAME_END_NTF, GameEndBytes(EndNotificationOf(records[0]))))]
      + StateNotice(s, records[0].room) + Announcements(s, records[1..])
  }

  lemma {:induction false} AnnouncementsDepend(s: LobbyState, t: LobbyState, records: seq<FinishedGame>)
    requires t.rooms == s.rooms && t.users == s.users
    ensures Announcements(t, records) == Announcements(s, records)
    decreases |records|
  {
    hide NoticeOf, GameEndBytes, EndNotificationOf;
    if records != [] {
      SameSnapshot(s, t, records[0].room);
      AnnouncementsDepend(s, t, records[1..]);
    }
  }

  lemma AnnounceSends(s: Server)
    requires Sound(s) && s.run.lobby.finished != []
    ensures var f, u := s.run.lobby.finished[0], Popped(s);
            && Sound(Announce(u, f)) && Announce(u, f).run == u.run
            && Sends(s.net, Announce(u, f).net,
                     [Sending(f.targets, Packet(GAME_END_NTF, GameEndBytes(EndNotificationOf(f))))] + StateNotice(s.run.lobby, f.room))
  {
    hide NetInvBut, RunInv, Broadcast, NotifyRoomState, GameEndBytes, EndNotificationOf, Announce, Sends, NoticeOf, Passes;
    var f, u := s.run.lobby.finished[0], Popped(s);
    var body := GameEndBytes(EndNotificationOf(f));
    EndGoesOut(s);
    PopKeepsRunInv(s.run);
    TargetsOf(s.run, f);
    BroadcastSends(s.net, f.targets, GAME_END_NTF, body);
    BroadcastIsQuiet(s.net, f.targets, GAME_END_NTF, body);
    var v := u.(net := Broadcast(s.net, f.targets, GAME_END_NTF, body));
    StateNoticeSends(v, f.room);
    NotifyRoomStateIsCalm(v, f.room);
    SameSnapshot(s.run.lobby, u.run.lobby, f.room);
    SendsTwice(s.net, v.net, Announce(u, f).net, [Sending(f.targets, Packet(GAME_END_NTF, body))], StateNotice(s.run.lobby, f.room));
  }

  lemma {:induction false} FlushSends(s: Server)
    requires Sound(s)
    ensures Sends(s.net, FlushFinishedGames(s).net, Announcements(s.run.lobby, s.run.lobby.finished))
    decreases |s.run.lobby.finished|
  {
    hide NetInvBut, RunInv, Announce, Sends, GameEndBytes, EndNotificationOf, StateNotice, Popped;
    if s.run.lobby.finished == [] {
      StaysSilent(s.net);
    } else {
      var f, rest := s.run.lobby.finished[0], s.run.lobby.finished[1..];
      var t := Announce(Popped(s), f);
      AnnounceSends(s);
      PoppedLobby(s);
      FlushSends(t);
      AnnouncementsDepend(s.run.lobby, t.run.lobby, rest);
      SendsTwice(s.net, t.net, FlushFinishedGames(t).net,
                 [Sending(f.targets, Packet(GAME_END_NTF, GameEndBytes(EndNotificationOf(f))))] + StateNotice(s.run.lobby, f.room),
                 Announcements(s.run.lobby, rest));
    }
  }

  lemma PoppedLobby(s: Server)
    requires s.run.lobby.finished != []
    ensures Popped(s).run.lobby == s.run.lobby.(finished := s.run.lobby.finished[1..])
  {
  }
}
