/** When a session that does not log in is cut off: at the first check at or after its
    connection's time plus the login timeout, and never before. */
module LoginDeadlines {
  import opened Protocol
  import opened Framing
  import opened NetRules
  import opened NetInvariant
  import opened UserRules
  import opened LobbyRules
  import opened LobbyInvariant
  import opened ServerRules
  import opened ServerInvariant
  import opened ServerPartition
  import opened ServerRuns

  /** The network has reported that the session was opened at t. */
  ghost predicate OpenedAt(n: NetState, c: SessionId, t: Time) {
    Connected(c, t) in n.emitted
  }

  /** Every deadline is the login timeout after the opening of its session. */
  ghost predicate Dated(s: Server) {
    forall c :: c in s.deadlines ==> OpenedAt(s.net, c, s.deadlines[c] - s.loginTimeout)
  }

  /** Deadlines are only dropped, never moved. */
  ghost predicate OnlyDrops(s: Server, t: Server) {
    && t.loginTimeout == s.loginTimeout && s.net.emitted <= t.net.emitted
    && forall c :: c in t.deadlines ==> c in s.deadlines && t.deadlines[c] == s.deadlines[c]
  }

  lemma DropsKeepDates(s: Server, t: Server)
    requires Dated(s) && OnlyDrops(s, t)
    ensures Dated(t)
  {
  }

  lemma DropsTwice(a: Server, b: Server, c: Server)
    requires OnlyDrops(a, b) && OnlyDrops(b, c)
    ensures OnlyDrops(a, c)
  {
  }

  lemma CalmOnlyDrops(s: Server, t: Server)
    requires Calm(s, t)
    ensures OnlyDrops(s, t)
  {
    hide Sound;
  }

  // ----- the handlers -----

  lemma LoginOnlyDrops(s: Server, session: SessionId, body: Bytes)
    requires ServerInv(s) && IsConnected(s.net, session) && !ConnectPending(s.net, session)
    ensures OnlyDrops(s, HandleLogin(s, session, body))
  {
    hide ServerInv, Login, Respond, Disconnect, ConnectPending, DropPending, IsConnected;
    LoginKeeps(s, session, body);
  }

  lemma DisconnectedDropsOne(s: Server, session: SessionId, now: Time)
    ensures var t := HandleDisconnected(s, session, now);
            t.deadlines == s.deadlines - {session} && t.loginTimeout == s.loginTimeout
  {
    hide LeaveRoom, Remove, FlushFinishedGames, Broadcast, SnapshotOf;
    if session in s.run.lobby.users.bySession {
      var (left, o) := LeaveRoom(s.run.lobby, session, GameEndReason.Disconnected, now);
      FlushKeepsRooms(WithLobby(s.(deadlines := s.deadlines - {session}), left.(users := Remove(left.users, session))));
    }
  }

  lemma ConnectedIsDated(s: Server, session: SessionId, t: Time)
    requires Dated(s) && OpenedAt(s.net, session, t)
    ensures Dated(HandleConnected(s, session, t))
  {
    hide IsConnected;
  }

  lemma HeadIsLogged(n: NetState)
    requires NetInv(n) && n.events != []
    ensures n.events[0] in n.emitted
  {
    hide IdsInv, StagesInv, LogsInv, ClientInv;
    assert n.emitted[|n.emitted| - |n.events|] == n.events[0];
  }

  lemma PacketOnlyDrops(s: Server, session: SessionId, p: Packet, now: Time)
    requires ServerInv(s) && IsConnected(s.net, session) && !ConnectPending(s.net, session)
    ensures OnlyDrops(s, ProcessPacket(s, session, p, now))
  {
    hide Sound, Partition, Calm, OnlyDrops, HandleLogin, ConnectPending, IsConnected;
    if p.id == LOGIN_REQ {
      LoginOnlyDrops(s, session, p.body);
    } else {
      hide ProcessPacket;
      OtherPacketIsCalm(s, session, p, now);
      CalmOnlyDrops(s, ProcessPacket(s, session, p, now));
    }
  }

  lemma RoundIsDated(s: Server, check: Time, now: Time)
    requires ServerInv(s) && Dated(s)
    ensures Dated(Round(s, check, now)) && Round(s, check, now).loginTimeout == s.loginTimeout
  {
    hide NetInvBut, RunInv, Partition, ProcessPacket, HandleDisconnected, Disconnect, IsConnected, ConnectPending, DropPending;
    if s.net.events != [] {
      var u := s.(net := TryPopEvent(s.net).0);
      HeadIsLogged(s.net);
      match s.net.events[0]
      case Connected(session, occurredAt) => ConnectedIsDated(u, session, occurredAt);
      case Disconnected(session) =>
        DisconnectedKeeps(s, session, now);
        DisconnectedDropsOne(u, session, now);
        DropsKeepDates(u, HandleDisconnected(u, session, now));
      case Arrived(session, p) => ArrivedIsDated(s, check, now);
    }
  }

  lemma ArrivedIsDated(s: Server, check: Time, now: Time)
    requires ServerInv(s) && Dated(s) && s.net.events != [] && s.net.events[0].Arrived?
    ensures var u, e := s.(net := TryPopEvent(s.net).0), s.net.events[0];
            Dated(HandleEvent(u, e, check, now)) && HandleEvent(u, e, check, now).loginTimeout == s.loginTimeout
  {
    hide NetInvBut, RunInv, Partition, ProcessPacket, Disconnect, IsConnected, ConnectPending, DropPending, OnlyDrops, Quiet;
    var e, u := s.net.events[0], s.(net := TryPopEvent(s.net).0);
    FirstEvent(s.net);
    TryPopKeepsNetInv(s.net);
    PopKeepsPartition(s.net, Users(s), s.deadlines.Keys);
    ExpiredOnlyDrops(u, e.session);
    DropsKeepDates(u, u.(deadlines := u.deadlines - {e.session}, net := Disconnect(u.net, e.session)));
    if IsConnected(u.net, e.session) {
      PacketOnlyDrops(u, e.session, e.packet, now);
      DropsKeepDates(u, ProcessPacket(u, e.session, e.packet, now));
      DropsKeepTimeout(u, ProcessPacket(u, e.session, e.packet, now));
    }
  }

  lemma DropsKeepTimeout(s: Server, t: Server)
    requires OnlyDrops(s, t)
    ensures t.loginTimeout == s.loginTimeout
  {
  }

  lemma ExpiredOnlyDrops(s: Server, c: SessionId)
    requires ServerInv(s)
    ensures OnlyDrops(s, s.(deadlines := s.deadlines - {c}, net := Disconnect(s.net, c)))
  {
    hide Sound, Partition, Disconnect;
    ExpireLoginKeeps(s, c);
  }

  // ----- updates and runs -----

  lemma {:induction false} RoundsAreDated(s: Server, readings: seq<Reading>)
    requires ServerInv(s) && Dated(s)
    ensures Dated(Rounds(s, readings)) && Rounds(s, readings).loginTimeout == s.loginTimeout
    decreases |readings|
  {
    hide ServerInv, Dated, Round;
    if readings != [] {
      RoundIsDated(s, readings[0].check, readings[0].now);
      RoundKeeps(s, readings[0].check, readings[0].now);
      RoundsAreDated(Round(s, readings[0].check, readings[0].now), readings[1..]);
    }
  }

  lemma {:induction false} CheckOnlyDrops(s: Server, order: seq<SessionId>, now: Time)
    requires ServerInv(s)
    ensures OnlyDrops(s, CheckLoginTimeouts(s, order, now))
    decreases |order|
  {
    hide ServerInv, Disconnect;
    if order != [] {
      if IsLoginExpired(s, order[0], now) {
        var t := s.(deadlines := s.deadlines - {order[0]}, net := Disconnect(s.net, order[0]));
        ExpiredOnlyDrops(s, order[0]);
        ExpireLoginKeeps(s, order[0]);
        CheckOnlyDrops(t, order[1..], now);
      } else {
        CheckOnlyDrops(s, order[1..], now);
      }
    }
  }

  lemma SweepOnlyDrops(s: Server, order: seq<RoomId>, now: Time)
    requires ServerInv(s)
    ensures OnlyDrops(s, SweepGames(s, order, now))
  {
    hide NetInvBut, RunInv, Partition, SweepGames;
    SweepGamesKeeps(s, order, now);
    SweepKeepsDeadlines(s, order, now);
  }

  lemma LoopIsDated(s: Server, u: UpdateInput)
    requires ServerInv(s) && Dated(s)
    ensures ServerInv(AfterLoop(s, u)) && Dated(AfterLoop(s, u)) && AfterLoop(s, u).loginTimeout == s.loginTimeout
  {
    hide ServerInv, Dated, OnlyDrops, SweepGames, Rounds;
    UpdateKeeps(s, u);
    SweepGamesKeeps(s, u.firstRooms, u.firstNow);
    SweepOnlyDrops(s, u.firstRooms, u.firstNow);
    var swept := SweepGames(s, u.firstRooms, u.firstNow);
    DropsKeepDates(s, swept);
    DropsKeepTimeout(s, swept);
    RoundsAreDated(swept, Readings(u.readings, 0, Measure(swept.net)));
  }

  lemma UpdateIsDated(s: Server, u: UpdateInput)
    requires ServerInv(s) && Dated(s)
    ensures Dated(Update(s, u)) && Update(s, u).loginTimeout == s.loginTimeout
  {
    hide ServerInv, Dated, OnlyDrops, SweepGames, AfterLoop, CheckLoginTimeouts;
    UpdateKeeps(s, u);
    LoopIsDated(s, u);
    var looped, first, checked := AfterLoop(s, u), AfterFirstCheck(s, u), AfterChecks(s, u);
    CheckOnlyDrops(looped, u.firstLogins, u.firstCheck);
    CheckOnlyDrops(first, u.secondLogins, u.secondCheck);
    SweepOnlyDrops(checked, u.lastRooms, u.lastNow);
    DropsTwice(looped, first, checked);
    DropsTwice(looped, checked, Update(s, u));
    DropsKeepDates(looped, Update(s, u));
    DropsKeepTimeout(looped, Update(s, u));
  }

  lemma PassIsDated(s: Server, r: Readiness)
    requires ServerInv(s) && Dated(s)
    ensures Dated(s.(net := NetRules.Run(s.net, r)))
  {
    hide NetInvBut, RunInv, Partition, NetRules.Run, IsConnected;
    RunPasses(s.net, r);
    DropsKeepDates(s, s.(net := NetRules.Run(s.net, r)));
  }

  lemma {:induction false} EveryRunIsDated(start: Server, steps: seq<Step>)
    requires IsStart(start)
    ensures ServerInv(DoSteps(start, steps)) && Dated(DoSteps(start, steps))
    ensures DoSteps(start, steps).loginTimeout == start.loginTimeout
    decreases |steps|
  {
    hide ServerInv, Dated, Update, NetRules.Run, AfterLoop, IsStart;
    if steps == [] {
      StartInv(start);
      assert Dated(start) by { StartIsDated(start); }
    } else {
      var front := steps[..|steps| - 1];
      EveryRunIsDated(start, front);
      match steps[|steps| - 1]
      case NetPass(r) => NetPassKeeps(DoSteps(start, front), r); PassIsDated(DoSteps(start, front), r);
      case LogicPass(u) => UpdateKeeps(DoSteps(start, front), u); UpdateIsDated(DoSteps(start, front), u);
    }
  }

  lemma StartIsDated(start: Server)
    requires IsStart(start)
    ensures Dated(start)
  {
  }

  // ----- exactly when -----

  /** A session is opened once. */
  lemma OpenedOnce(n: NetState, c: SessionId, t: Time, other: Time)
    requires NetInv(n) && OpenedAt(n, c, t) && OpenedAt(n, c, other)
    ensures t == other
  {
    hide QueueInv, IdsInv, LogsInv, ClientInv, StageOf;
    var es := n.emitted;
    assert StageOf(es, c) != Broken;
    var i :| 0 <= i < |es| && es[i] == Connected(c, t);
    var j :| 0 <= j < |es| && es[j] == Connected(c, other);
    if i < j { OneOpening(es, c, i, j); }
    if j < i { OneOpening(es, c, j, i); }
  }

  lemma OneOpening(es: seq<Event>, c: SessionId, i: nat, j: nat)
    requires i < j < |es| && es[i].Connected? && es[i].session == c && es[j].Connected? && es[j].session == c
    ensures StageOf(es, c) == Broken
  {
    if StageOf(es, c) != Broken {
      var a, b := es[..i + 1], es[i + 1..];
      assert es == a + b && es[..i] + [es[i]] == a;
      assert b[j - i - 1] == es[j];
      OneMore(es[..i], es[i], c);
      StageOnwards(a, b, c);
      assert false;
    }
  }

  /** In every run, the deadline of a session is its opening plus the login timeout. */
  lemma DeadlinesAreKept(start: Server, steps: seq<Step>, c: SessionId, t: Time)
    requires IsStart(start) && c in DoSteps(start, steps).deadlines && OpenedAt(DoSteps(start, steps).net, c, t)
    ensures DoSteps(start, steps).deadlines[c] == t + start.loginTimeout
  {
    hide NetInvBut, RunInv, Partition, DoSteps, OpenedAt, IsStart;
    EveryRunIsDated(start, steps);
    var s := DoSteps(start, steps);
    OpenedOnce(s.net, c, t, s.deadlines[c] - s.loginTimeout);
  }

  /** No check cuts off a session too early, in any state of any run: neither one still to log in
      nor a user. */
  lemma NobodyIsCutEarly(start: Server, steps: seq<Step>, order: seq<SessionId>, now: Time, c: SessionId, t: Time)
    requires IsStart(start) && OpenedAt(DoSteps(start, steps).net, c, t) && now < t + start.loginTimeout
    ensures var s := DoSteps(start, steps);
            IsConnected(s.net, c) ==> IsConnected(CheckLoginTimeouts(s, order, now).net, c)
  {
    hide ServerInv, DoSteps, OpenedAt, CheckLoginTimeouts, IsConnected, IsStart;
    var s := DoSteps(start, steps);
    EveryRunIsDated(start, steps);
    NoExpiredLoginStays(s, order, now);
    if c in s.deadlines { DeadlinesAreKept(start, steps, c, t); }
  }

  /** The check behind the loop, in any Update of any run: an open session stays open exactly when
      it has logged in or its time is not over. */
  lemma LoginsAreCutExactly(start: Server, steps: seq<Step>, u: UpdateInput, order: seq<SessionId>, now: Time, c: SessionId, t: Time)
    requires IsStart(start)
    requires var s := AfterLoop(DoSteps(start, steps), u);
             IsConnected(s.net, c) && OpenedAt(s.net, c, t) && MeetsLogins(s, order)
    ensures var s := AfterLoop(DoSteps(start, steps), u);
            IsConnected(CheckLoginTimeouts(s, order, now).net, c) <==> c in Users(s) || now < t + start.loginTimeout
  {
    hide NetInvBut, RunInv, Partition, DoSteps, OpenedAt, CheckLoginTimeouts, IsConnected, AfterLoop, IsStart, Users, MeetsLogins;
    var s := AfterLoop(DoSteps(start, steps), u);
    EveryRunIsDated(start, steps);
    LoopIsDated(DoSteps(start, steps), u);
    EveryServerRun(start, steps, u);
    NoExpiredLoginStays(s, order, now);
    if c in s.deadlines {
      assert c in order by { MetLogin(s, order, c); }
      OpenedOnce(s.net, c, t, s.deadlines[c] - s.loginTimeout);
    }
  }

  lemma MetLogin(s: Server, order: seq<SessionId>, c: SessionId)
    requires MeetsLogins(s, order) && c in s.deadlines
    ensures c in order
  {
  }

  /** The check in the loop: a packet of a session that has not logged in is processed while the
      session's time is not over; after that it is not, and the session is cut off. */
  lemma LatePacketsAreCut(s: Server, check: Time, now: Time, t: Time)
    requires ServerInv(s) && Dated(s) && s.net.events != [] && s.net.events[0].Arrived?
    requires OpenedAt(s.net, s.net.events[0].session, t)
    ensures var e, u, after := s.net.events[0], s.(net := TryPopEvent(s.net).0), Round(s, check, now);
            if !IsConnected(s.net, e.session) then after == u
            else if e.session in Users(s) || check < t + s.loginTimeout then after == ProcessPacket(u, e.session, e.packet, now)
            else after.run == s.run && !IsConnected(after.net, e.session)
  {
    hide NetInvBut, RunInv, ProcessPacket, Disconnect, ConnectPending, DropPending, OpenedAt, IsConnected;
    var e, u := s.net.events[0], s.(net := TryPopEvent(s.net).0);
    FirstEvent(s.net);
    TryPopKeepsNetInv(s.net);
    DisconnectKeepsNetInv(u.net, e.session);
    PoppedIsConnected(s.net, e.session);
    if IsConnected(s.net, e.session) { assert e.session in Users(s) <==> e.session !in s.deadlines.Keys; }
    if e.session in s.deadlines { OpenedOnce(s.net, e.session, t, s.deadlines[e.session] - s.loginTimeout); }
  }
}
