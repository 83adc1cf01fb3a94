/** Under the client discipline every session fills at most one slot, and leaves no ghost behind. */
module DisciplineSteps {
  import opened RoomCommand
  import opened SessionSpec
  import opened MatchSpec
  import opened RoomSpec
  import opened Protocol
  import opened RoomInvariant
  import opened ServerInvariant
  import opened ServerSteps
  import opened Discipline

  // ---- taking a command off the queue ----

  /** A session about to be bound holds no slot under which it could be bound twice. */
  ghost predicate Free(w: World, s: int) {
    s in w.net.sessions && !w.net.sessions[s].retired && w.net.sessions[s].binding.room == -1 ==> NoLive(w.rooms, s)
  }

  lemma ExitAheadPops(p: seq<LobbyCommand>, s: int, r: int)
    requires ExitAhead(p, s, r) && p[0] != Exit(s, r)
    ensures ExitAhead(p[1..], s, r) && !Binds(p[0], s)
  {
    var j :| 0 <= j < |p| && p[j] == Exit(s, r) && forall k | 0 <= k < j :: !Binds(p[k], s);
    assert p[1..][j - 1] == Exit(s, r);
    assert forall k | 0 <= k < j - 1 :: p[1..][k] == p[k + 1];
  }

  lemma PopKeepsSlots(w: World)
    requires WorldOK(w) && Orderly(w) && w.batch != []
    ensures SlotsExplained(Popped(w), w.batch[0])
  {
    var c := w.batch[0];
    var w' := Popped(w);
    var p := Pending(w);
    assert Pending(w') == p[1..];
    forall r, i, s | Live(w'.rooms, r, i, s) && s in w'.net.sessions
      ensures !w'.net.sessions[s].retired && w'.net.sessions[s].binding.room == -1 && c != Exit(s, r) ==>
                ExitAhead(Pending(w'), s, r)
    {
      if !w.net.sessions[s].retired && w.net.sessions[s].binding.room == -1 && c != Exit(s, r) {
        assert Live(w.rooms, r, i, s);
        ExitAheadPops(p, s, r);
      }
    }
  }

  lemma PopKeepsHandlers(w: World)
    requires WorldOK(w) && Orderly(w) && w.batch != []
    ensures HandlersOK(Popped(w), w.batch[0])
  {
    var c := w.batch[0];
    var w' := Popped(w);
    var p := Pending(w);
    assert Pending(w') == p[1..];
    forall s | s in w'.net.sessions ensures HandlerOK(w', c, s) {
      assert HandlerOK(w, NOTHING, s);
      assert forall x :: x in p ==> x == p[0] || x in p[1..];
    }
  }

  lemma PopKeepsRest(w: World)
    requires WorldOK(w) && Orderly(w) && w.batch != []
    ensures TokensAgree(Popped(w)) && TokensDistinct(Popped(w)) && NoGhosts(Popped(w), w.batch[0])
  {
    var w' := Popped(w);
    assert Pending(w') == Pending(w)[1..];
    forall s, t | Claims(w', s, t) ensures Claims(w, s, t) {}
  }

  lemma PopKeepsOrder(w: World)
    requires WorldOK(w) && Orderly(w) && w.batch != []
    ensures OrderlyBut(Popped(w), w.batch[0])
  {
    PopKeepsSlots(w);
    PopKeepsHandlers(w);
    PopKeepsRest(w);
  }

  /** The command about to be executed, if it binds, belongs to a session that is ready to be bound. */
  lemma BinderIsReady(w: World)
    requires WorldOK(w) && Orderly(w) && w.batch != []
    requires Binds(w.batch[0], w.batch[0].sid)
    ensures Free(w, w.batch[0].sid) && ReadyToBind(w, w.batch[0])
  {
    var c := w.batch[0];
    assert CommandKnown(c, w.net);
    assert Pending(w)[0] == c;
    assert HandlerOK(w, NOTHING, c.sid);
    if !w.net.sessions[c.sid].retired && w.net.sessions[c.sid].binding.room == -1 {
      forall r, i ensures !Live(w.rooms, r, i, c.sid) {
        if Live(w.rooms, r, i, c.sid) { ExitAheadPops(Pending(w), c.sid, r); }
      }
    }
  }

  ghost predicate ReadyToBind(w: World, c: LobbyCommand) {
    && !HandlerOf(w, c.sid).ExitRead? && !HandlerOf(w, c.sid).ExitQueued?
    && (c.Resume? ==> !HandlerOf(w, c.sid).LoginRead?)
  }

  // ---- binding ----

  /** A free session takes a slot of token `t`, evicting at most the slot's occupant. */
  ghost predicate Binding(w: World, w': World, r: int, i: int, sid: int) {
    && SlotTaken(w, w', r, i, sid)
    && var m := w.rooms[r].members[i];
    && var m' := w'.rooms[r].members[i];
    && w'.net.sessions.Keys == w.net.sessions.Keys && w'.net.active <= w.net.active
    && sid in w.net.active && !w.net.sessions[sid].retired && NoLive(w.rooms, sid)
    && (Filled(m) ==> m'.token == m.token && m.sid in w'.net.sessions && w'.net.sessions[m.sid].retired)
    && (!Filled(m) ==> m'.token == w.net.sessions[sid].token)
    && w'.net.sessions[sid].token == m'.token
    && (forall s | s in w.net.sessions && s != sid ::
          && w'.net.sessions[s].token == w.net.sessions[s].token
          && (w.net.sessions[s].retired ==> w'.net.sessions[s].retired)
          && (w'.net.sessions[s].retired
              || w'.net.sessions[s].binding.room == w.net.sessions[s].binding.room))
    && w'.handlers == w.handlers && w'.executed == w.executed && w'.issued == w.issued
    && w'.didLogin == w.didLogin && w'.didResume == w.didResume && w'.batch == w.batch
    && (HandlerOf(w, sid) == Waiting || HandlerOf(w, sid).GameRead?
        || (HandlerOf(w, sid).LoginRead? && w'.net.sessions[sid].token == w.net.sessions[sid].token))
    && |w.net.lobby| <= |w'.net.lobby| && w'.net.lobby[..|w.net.lobby|] == w.net.lobby
    && (forall k | |w.net.lobby| <= k < |w'.net.lobby| ::
          Announces(w'.net.lobby[k], w.net) && Filled(m) && w'.net.lobby[k].sid == m.sid && m.sid != sid)
  }

  lemma BindingSlots(w: World, w': World, r: int, i: int, sid: int)
    requires Binding(w, w', r, i, sid)
    ensures forall q, j, s | Holds(w'.rooms, q, j, s) ::
              if q == r && j == i then s == sid
              else Holds(w.rooms, q, j, s) && w'.rooms[q].members[j] == w.rooms[q].members[j]
    ensures Holds(w'.rooms, r, i, sid) || sid == -1
  {
  }

  lemma BindingKeepsSlots(w: World, w': World, r: int, i: int, sid: int, c: LobbyCommand)
    requires WorldOK(w) && OrderlyBut(w, c) && Binding(w, w', r, i, sid) && Binds(c, sid)
    ensures NoDuplicates(w'.rooms) && SlotsExplained(w', c)
  {
    BindingSlots(w, w', r, i, sid);
    NotWaiting(w, sid);
    var p, q := Pending(w), Pending(w');
    assert q[..|p|] == p;
    forall a, b, s | Live(w'.rooms, a, b, s) && s in w'.net.sessions
      ensures !w'.net.sessions[s].retired && w'.net.sessions[s].binding.room == -1 && c != Exit(s, a) ==>
                ExitAhead(q, s, a)
    {
      if s != sid && !w'.net.sessions[s].retired && w'.net.sessions[s].binding.room == -1 {
        assert Live(w.rooms, a, b, s);
        ExitAheadGrows(p, q, s, a);
      }
    }
  }

  /** An active session has no Reconnecting slot, so one without a live slot has none at all. */
  lemma NotWaiting(w: World, sid: int)
    requires WorldOK(w) && sid in w.net.active && NoLive(w.rooms, sid)
    ensures forall r, i :: !Holds(w.rooms, r, i, sid)
  {
    forall r, i | Holds(w.rooms, r, i, sid) ensures Live(w.rooms, r, i, sid) {
      assert RoomKnown(w.rooms[r], w.net);
      assert SlotKnown(w.rooms[r].members[i], w.net);
    }
  }

  /** What is appended to the pending commands, if anything, announces a departure. */
  lemma BindingOnlyAnnounces(w: World, w': World, r: int, i: int, sid: int)
    requires Binding(w, w', r, i, sid)
    ensures |Pending(w)| <= |Pending(w')|
    ensures forall k | 0 <= k < |Pending(w)| :: Pending(w')[k] == Pending(w)[k]
    ensures forall k | |Pending(w)| <= k < |Pending(w')| :: Pending(w')[k].Disconnected?
  {
    var p, q := Pending(w), Pending(w');
    assert q[..|p|] == p;
    forall k | 0 <= k < |p| ensures q[k] == p[k] {
      assert q[..|p|][k] == q[k];
    }
    forall k | |p| <= k < |q| ensures q[k].Disconnected? {
      assert q[k] == w'.net.lobby[k - |w.batch|];
    }
  }

  lemma BindingKeepsHandlers(w: World, w': World, r: int, i: int, sid: int, c: LobbyCommand)
    requires WorldOK(w) && OrderlyBut(w, c) && Binding(w, w', r, i, sid) && Binds(c, sid)
    ensures HandlersOK(w', c)
  {
    BindingOnlyAnnounces(w, w', r, i, sid);
    forall s | s in w'.net.sessions ensures HandlerOK(w', c, s) {
      BindingKeepsHandler(w, w', r, i, sid, c, s);
    }
  }

  lemma BindingKeepsHandler(w: World, w': World, r: int, i: int, sid: int, c: LobbyCommand, s: int)
    requires OrderlyBut(w, c) && Binding(w, w', r, i, sid) && Binds(c, sid) && s in w.net.sessions && s in w'.net.sessions
    ensures HandlerOK(w', c, s)
  {
    BindingOnlyAnnounces(w, w', r, i, sid);
    assert HandlerOK(w, c, s);
  }

  lemma BindingMakesNoGhosts(w: World, w': World, r: int, i: int, sid: int, c: LobbyCommand)
    requires WorldOK(w) && OrderlyBut(w, c) && Binding(w, w', r, i, sid)
    ensures NoGhosts(w', c)
  {
    BindingSlots(w, w', r, i, sid);
    forall k | 0 <= k < |w'.executed| && w'.executed[k].Disconnected? && w'.executed[k] != c
      ensures w'.executed[k].sid !in w'.net.active && NoLive(w'.rooms, w'.executed[k].sid)
    {
      assert NoLive(w.rooms, w.executed[k].sid);
      assert w.executed[k].sid != sid;
      forall a, b ensures !Live(w'.rooms, a, b, w.executed[k].sid) {
        assert !Live(w.rooms, a, b, w.executed[k].sid);
      }
    }
  }

  lemma BindingKeepsAgreement(w: World, w': World, r: int, i: int, sid: int, c: LobbyCommand)
    requires WorldOK(w) && OrderlyBut(w, c) && Binding(w, w', r, i, sid) && Binds(c, sid)
    ensures TokensAgree(w')
  {
    BindingSlots(w, w', r, i, sid);
    var p, q := Pending(w), Pending(w');
    forall k, a, b | 0 <= k < |q| && q[k].Disconnected? && Live(w'.rooms, a, b, q[k].sid)
      ensures q[k].token == w'.rooms[a].members[b].token
    {
      assert Holds(w'.rooms, a, b, q[k].sid);
      if k < |p| {
        assert q[k] == p[k] by { assert q[..|p|] == p; assert q[..|p|][k] == q[k]; }
        assert CommandKnown(p[k], w.net);
        assert q[k].sid != sid;
        assert Live(w.rooms, a, b, q[k].sid);
      } else {
        assert q[k] == w'.net.lobby[k - |w.batch|];
        assert Holds(w.rooms, a, b, q[k].sid);
        assert Live(w.rooms, a, b, q[k].sid);
      }
    }
    forall a, b, s | Live(w'.rooms, a, b, s)
      ensures s in w'.net.sessions && w'.rooms[a].members[b].token == w'.net.sessions[s].token
    {
      assert Holds(w'.rooms, a, b, s);
      if !(a == r && b == i) {
        assert Live(w.rooms, a, b, s);
        NotWaiting(w, sid);
        assert s != sid;
      }
    }
  }

  /** The token of the slot taken belongs to no other slot, and to no live session but the new occupant. */
  lemma BindingToken(w: World, w': World, r: int, i: int, sid: int, c: LobbyCommand)
    requires WorldOK(w) && OrderlyBut(w, c) && Binding(w, w', r, i, sid) && Binds(c, sid)
    ensures var t := w'.rooms[r].members[i].token;
            && t in w.issued && t != 0
            && (forall a, b, s | Holds(w.rooms, a, b, s) && w.rooms[a].members[b].token == t :: a == r && b == i)
            && (forall u | Claims(w, u, t) && u != sid :: w'.net.sessions[u].retired)
  {
    var m := w.rooms[r].members[i];
    var t := w'.rooms[r].members[i].token;
    NotWaiting(w, sid);
    if Filled(m) {
      assert Holds(w.rooms, r, i, m.sid);
    } else {
      assert Claims(w, sid, t);
    }
  }

  lemma BindingClaims(w: World, w': World, r: int, i: int, sid: int, c: LobbyCommand)
    requires WorldOK(w) && OrderlyBut(w, c) && Binding(w, w', r, i, sid) && Binds(c, sid)
    ensures var t := w'.rooms[r].members[i].token;
            forall u, x | Claims(w', u, x) :: if x == t then u == sid else Claims(w, u, x)
  {
    BindingToken(w, w', r, i, sid, c);
    assert HandlerOK(w, c, sid);
    var t := w'.rooms[r].members[i].token;
    forall u, x | Claims(w', u, x) ensures if x == t then u == sid else Claims(w, u, x) {
      if u != sid { assert Claims(w, u, x); }
    }
  }

  lemma BindingKeepsDistinct(w: World, w': World, r: int, i: int, sid: int, c: LobbyCommand)
    requires WorldOK(w) && OrderlyBut(w, c) && Binding(w, w', r, i, sid) && Binds(c, sid)
    ensures TokensDistinct(w')
  {
    BindingSlots(w, w', r, i, sid);
    BindingToken(w, w', r, i, sid, c);
    BindingClaims(w, w', r, i, sid, c);
    forall a, b, s, d, e, u | Holds(w'.rooms, a, b, s) && Holds(w'.rooms, d, e, u)
      && w'.rooms[a].members[b].token == w'.rooms[d].members[e].token
      ensures a == d && b == e
    {
      if a == r && b == i {
      } else {
        assert Holds(w.rooms, a, b, s);
      }
    }
    forall a, b, s, u | Holds(w'.rooms, a, b, s) && Claims(w', u, w'.rooms[a].members[b].token) ensures u == s {
      if !(a == r && b == i) { assert Holds(w.rooms, a, b, s); }
    }
  }

  lemma BindingKeepsOrder(w: World, w': World, r: int, i: int, sid: int, c: LobbyCommand)
    requires WorldOK(w) && OrderlyBut(w, c) && Binding(w, w', r, i, sid) && Binds(c, sid)
    ensures OrderlyBut(w', c)
  {
    BindingKeepsSlots(w, w', r, i, sid, c);
    BindingKeepsHandlers(w, w', r, i, sid, c);
    BindingMakesNoGhosts(w, w', r, i, sid, c);
    BindingKeepsAgreement(w, w', r, i, sid, c);
    BindingKeepsDistinct(w, w', r, i, sid, c);
  }

  lemma EnterIsBinding(w: World, r: int, c: Scene, sid: int)
    requires WorldOK(w) && IsValidRoom(r) && sid in w.net.sessions && Unbound(w.net, sid) && Free(w, sid)
    requires c.net == w.net && (c.room == w.rooms[r] || (c.room == Opened(w.rooms[r]) && w.rooms[r].status == Empty))
    requires CanEnter(c, sid)
    requires !HandlerOf(w, sid).ExitRead? && !HandlerOf(w, sid).ExitQueued?
    ensures Binding(w, WithScene(w, r, UserIn(c, sid)), r, FreeIndex(c.room.members), sid)
  {
    UserInStep(w, r, c, sid);
  }

  lemma ReplacementIsBinding(w: World, w': World, r: int, i: int, sid: int, n: Net)
    requires WorldOK(w) && SlotTaken(w, w', r, i, sid) && NoLive(w.rooms, sid) && Found(w.net, sid)
    requires !w.net.sessions[sid].retired
    requires n == w.net.(sessions := n.sessions) && n.sessions.Keys == w.net.sessions.Keys
    requires forall s | s in w.net.sessions && s != sid :: n.sessions[s] == w.net.sessions[s]
    requires NetQuiet(n, w'.net) && w'.net.sessions.Keys == n.sessions.Keys
    requires var m := w.rooms[r].members[i];
             && Filled(m) && m.sid != sid && m.sid in w.net.sessions
             && w'.rooms[r].members[i].token == m.token && n.sessions[sid].token == m.token
             && (forall s | s in n.sessions && s != m.sid :: w'.net.sessions[s] == n.sessions[s])
             && w'.net.sessions[m.sid] == n.sessions[m.sid].(binding := UNBOUND, retired := true)
             && (w'.net == n || w'.net.lobby == n.lobby + [Disconnected(m.sid, n.sessions[m.sid].token)])
    requires HandlerOf(w, sid) == Waiting || HandlerOf(w, sid).GameRead?
    requires w'.net.active <= w.net.active
    ensures Binding(w, w', r, i, sid)
  {
  }

  lemma ResumeIsBinding(w: World, r: int, sid: int, token: nat)
    requires WorldOK(w) && IsValidRoom(r) && sid in w.net.sessions && token != 0 && Free(w, sid)
    requires CanResume(SceneAt(w, r), sid, token, w.now)
    requires !HandlerOf(w, sid).ExitRead? && !HandlerOf(w, sid).ExitQueued? && !HandlerOf(w, sid).LoginRead?
    ensures Binding(w, WithScene(w, r, ResumeUser(SceneAt(w, r), sid, token, w.now)), r,
                    TokenIndex(w.rooms[r].members, token), sid)
  {
    var c := SceneAt(w, r);
    var i := TokenIndex(c.room.members, token);
    var m := c.room.members[i];
    var w' := WithScene(w, r, ResumeUser(c, sid, token, w.now));
    ResumeRoomStep(w, r, sid, token);
    ResumeNet(c, sid, token, w.now);
    ResumeSlots(c, sid, token, w.now);
    ClaimedEffect(c, sid, token);
    NotWaiting(w, sid);
    assert Holds(w.rooms, r, i, m.sid);
    var n := Claimed(c, sid, token);
    if m.connection == Connected && Found(n, m.sid) {
      ReplacedNet(n, m.sid, w'.net);
    }
    ReplacementIsBinding(w, w', r, i, sid, n);
  }
}
