/**
 * One slot per session. The server relies on its clients here: Exit clears the session's binding before the
 * owner frees the slot, so a client must not leave a Create, Enter or Resume outstanding when it sends Exit,
 * and a session must use Login or Resume but not both.
 */
module Discipline {
  import opened RoomCommand
  import opened SessionSpec
  import opened MatchSpec
  import opened RoomSpec
  import opened Protocol
  import opened RoomInvariant
  import opened ServerInvariant
  import opened ServerSteps

  /** A command that may bind session `s` to a slot. */
  predicate Binds(c: LobbyCommand, s: int) {
    (c.Create? || c.Enter? || c.Resume?) && c.sid == s
  }

  /** What the clients must keep to. */
  ghost predicate Disciplined(w: World, step: Step) {
    match step
    case ExitReadStep(sid) => forall k | 0 <= k < |Pending(w)| :: !Binds(Pending(w)[k], sid)
    case LoginReadStep(sid, _) => sid !in w.didResume
    case LobbyStep(c) => c.Resume? ==> c.sid !in w.didLogin
    case _ => true
  }

  // ---- who holds which slot ----

  ghost predicate Holds(rooms: seq<Room>, r: int, i: int, s: int) {
    0 <= r < |rooms| && 0 <= i < |rooms[r].members| && rooms[r].members[i].sid == s && s != -1
  }

  ghost predicate Live(rooms: seq<Room>, r: int, i: int, s: int) {
    Holds(rooms, r, i, s) && rooms[r].members[i].connection == Connected
  }

  ghost predicate NoDuplicates(rooms: seq<Room>) {
    forall r, i, q, j, s | Holds(rooms, r, i, s) && Holds(rooms, q, j, s) :: r == q && i == j
  }

  /** Session `s` has an Exit from room `r` coming up, with nothing before it that could bind it again. */
  ghost predicate ExitAhead(p: seq<LobbyCommand>, s: int, r: int) {
    exists j | 0 <= j < |p| :: p[j] == Exit(s, r) && forall k | 0 <= k < j :: !Binds(p[k], s)
  }

  /** A session that lost its binding but not its slot is on its way out of that slot. */
  ghost predicate SlotsExplained(w: World, c: LobbyCommand) {
    forall r, i, s | Live(w.rooms, r, i, s) && s in w.net.sessions ::
      !w.net.sessions[s].retired && w.net.sessions[s].binding.room == -1 && c != Exit(s, r) ==>
        ExitAhead(Pending(w), s, r)
  }

  ghost predicate HandlerOK(w: World, c: LobbyCommand, s: int)
    requires s in w.net.sessions
  {
    match HandlerOf(w, s)
    case LoginRead(t) =>
      s in w.didLogin && t != 0 && t in w.issued && (w.net.sessions[s].token == 0 || w.net.sessions[s].token == t)
    case ExitRead(x) =>
      && (forall k | 0 <= k < |Pending(w)| :: !Binds(Pending(w)[k], s))
      && (w.net.sessions[s].binding.room == -1 || w.net.sessions[s].binding.room == x)
    case ExitQueued(x) =>
      && (forall k | 0 <= k < |Pending(w)| :: !Binds(Pending(w)[k], s))
      && (w.net.sessions[s].binding.room == -1 || w.net.sessions[s].binding.room == x)
      && (w.net.sessions[s].binding.room != -1 && c != Exit(s, x) ==> Exit(s, x) in Pending(w))
    case _ => true
  }

  ghost predicate HandlersOK(w: World, c: LobbyCommand) {
    && w.handlers.Keys <= w.net.sessions.Keys
    && w.didLogin !! w.didResume
    && w.didLogin <= w.net.sessions.Keys
    && (forall s | s in w.net.sessions :: HandlerOK(w, c, s))
    && (forall k | 0 <= k < |Pending(w)| :: Pending(w)[k].Resume? ==> Pending(w)[k].sid in w.didResume)
  }

  /** Slots, sessions and announcements agree on the resume token. */
  ghost predicate TokensAgree(w: World) {
    && (forall r, i, s | Live(w.rooms, r, i, s) ::
          s in w.net.sessions && w.rooms[r].members[i].token == w.net.sessions[s].token)
    && (forall k, r, i | 0 <= k < |Pending(w)| && Live(w.rooms, r, i, Pending(w)[k].sid) ::
          Pending(w)[k].Disconnected? ==> Pending(w)[k].token == w.rooms[r].members[i].token)
  }

  /** A session that can still be bound may present token `t`, or is about to be able to. */
  ghost predicate Claims(w: World, s: int, t: nat) {
    && s in w.net.sessions && !w.net.sessions[s].retired && t != 0
    && (w.net.sessions[s].token == t || HandlerOf(w, s) == LoginRead(t))
  }

  /** Nobody shares a token: neither two slots, nor two live sessions, nor a slot with a stranger. */
  ghost predicate TokensDistinct(w: World) {
    && (forall r, i, s | Holds(w.rooms, r, i, s) :: w.rooms[r].members[i].token in w.issued)
    && (forall s | s in w.net.sessions && w.net.sessions[s].token != 0 :: w.net.sessions[s].token in w.issued)
    && (forall r, i, s, q, j, u | Holds(w.rooms, r, i, s) && Holds(w.rooms, q, j, u) ::
          w.rooms[r].members[i].token == w.rooms[q].members[j].token ==> r == q && i == j)
    && (forall r, i, s, u | Holds(w.rooms, r, i, s) && Claims(w, u, w.rooms[r].members[i].token) :: u == s)
    && (forall s, u, t | Claims(w, s, t) && Claims(w, u, t) :: s == u)
  }

  ghost predicate NoLive(rooms: seq<Room>, s: int) {
    forall r, i :: !Live(rooms, r, i, s)
  }

  /** No slot is Connected under a session whose Disconnected has been executed. */
  ghost predicate NoGhosts(w: World, c: LobbyCommand) {
    forall k | 0 <= k < |w.executed| && w.executed[k].Disconnected? && w.executed[k] != c ::
      w.executed[k].sid !in w.net.active && w.executed[k].sid in w.net.sessions && NoLive(w.rooms, w.executed[k].sid)
  }

  /** The invariant while the owner is executing `c`. */
  ghost predicate OrderlyBut(w: World, c: LobbyCommand) {
    && NoDuplicates(w.rooms)
    && SlotsExplained(w, c)
    && HandlersOK(w, c)
    && TokensAgree(w)
    && TokensDistinct(w)
    && NoGhosts(w, c)
  }

  const NOTHING := SessionConnected(-1)

  ghost predicate Orderly(w: World) {
    OrderlyBut(w, NOTHING)
  }

  // ---- steps that bind nobody ----

  ghost predicate Announces(c: LobbyCommand, n: Net) {
    c.Disconnected? && c.sid in n.sessions && c.token == n.sessions[c.sid].token
  }

  /**
   * Slots only empty or drop; sessions only retire, or lose their binding together with their slot;
   * only Disconnected is announced.
   */
  ghost predicate Calm(w: World, w': World) {
    && |w'.rooms| == |w.rooms|
    && (forall r, i, s | Holds(w'.rooms, r, i, s) ::
          Holds(w.rooms, r, i, s) && w'.rooms[r].members[i].token == w.rooms[r].members[i].token)
    && (forall r, i, s | Live(w'.rooms, r, i, s) :: Live(w.rooms, r, i, s))
    && w'.net.sessions.Keys == w.net.sessions.Keys
    && w'.net.active <= w.net.active
    && (forall s | s in w.net.sessions ::
          && w'.net.sessions[s].token == w.net.sessions[s].token
          && (w.net.sessions[s].retired ==> w'.net.sessions[s].retired)
          && (w'.net.sessions[s].binding.room == w.net.sessions[s].binding.room
              || (w'.net.sessions[s].binding.room == -1 && (w'.net.sessions[s].retired || NoLive(w'.rooms, s)))))
    && w'.handlers == w.handlers && w'.executed == w.executed && w'.issued == w.issued
    && w'.didLogin == w.didLogin && w'.didResume == w.didResume
    && |Pending(w)| <= |Pending(w')| && Pending(w')[..|Pending(w)|] == Pending(w)
    && (forall k | |Pending(w)| <= k < |Pending(w')| :: Announces(Pending(w')[k], w.net))
  }

  lemma ExitAheadGrows(p: seq<LobbyCommand>, q: seq<LobbyCommand>, s: int, r: int)
    requires ExitAhead(p, s, r) && |p| <= |q| && q[..|p|] == p
    ensures ExitAhead(q, s, r)
  {
    var j :| 0 <= j < |p| && p[j] == Exit(s, r) && forall k | 0 <= k < j :: !Binds(p[k], s);
    forall k | 0 <= k <= j ensures q[k] == p[k] {
      assert q[..|p|][k] == q[k];
    }
  }

  lemma CalmKeepsSlots(w: World, w': World, c: LobbyCommand)
    requires OrderlyBut(w, c) && Calm(w, w')
    ensures NoDuplicates(w'.rooms) && SlotsExplained(w', c)
  {
    forall r, i, s | Live(w'.rooms, r, i, s) && s in w'.net.sessions
      ensures !w'.net.sessions[s].retired && w'.net.sessions[s].binding.room == -1 && c != Exit(s, r) ==>
                ExitAhead(Pending(w'), s, r)
    {
      assert Live(w.rooms, r, i, s);
      if !w'.net.sessions[s].retired && w'.net.sessions[s].binding.room == -1 && c != Exit(s, r) {
        assert w.net.sessions[s].binding.room == -1;
        ExitAheadGrows(Pending(w), Pending(w'), s, r);
      }
    }
  }

  lemma CalmKeepsHandlers(w: World, w': World, c: LobbyCommand)
    requires OrderlyBut(w, c) && Calm(w, w')
    ensures HandlersOK(w', c)
  {
    var p, q := Pending(w), Pending(w');
    forall k | 0 <= k < |p| ensures q[k] == p[k] {
      assert q[..|p|][k] == q[k];
    }
    forall k | |p| <= k < |q| ensures q[k].Disconnected? {
      assert Announces(q[k], w.net);
    }
    forall s | s in w'.net.sessions ensures HandlerOK(w', c, s) {
      assert HandlerOK(w, c, s);
    }
  }

  lemma CalmKeepsTokens(w: World, w': World, c: LobbyCommand)
    requires OrderlyBut(w, c) && Calm(w, w')
    ensures TokensAgree(w') && TokensDistinct(w')
  {
    forall k, r, i | 0 <= k < |Pending(w')| && Live(w'.rooms, r, i, Pending(w')[k].sid)
      ensures Pending(w')[k].Disconnected? ==> Pending(w')[k].token == w'.rooms[r].members[i].token
    {
      assert Live(w.rooms, r, i, Pending(w')[k].sid);
      assert Holds(w'.rooms, r, i, Pending(w')[k].sid);
      if k < |Pending(w)| {
        assert Pending(w')[..|Pending(w)|][k] == Pending(w)[k];
      } else {
        assert Announces(Pending(w')[k], w.net);
      }
    }
    forall r, i, s | Live(w'.rooms, r, i, s)
      ensures s in w'.net.sessions && w'.rooms[r].members[i].token == w'.net.sessions[s].token
    {
      assert Live(w.rooms, r, i, s) && Holds(w'.rooms, r, i, s);
    }
    forall s, t | Claims(w', s, t) ensures Claims(w, s, t) {}
  }

  lemma CalmKeepsOrder(w: World, w': World, c: LobbyCommand)
    requires OrderlyBut(w, c) && Calm(w, w')
    ensures OrderlyBut(w', c)
  {
    CalmKeepsSlots(w, w', c);
    CalmKeepsHandlers(w, w', c);
    CalmKeepsTokens(w, w', c);
    forall k | 0 <= k < |w'.executed| && w'.executed[k].Disconnected? && w'.executed[k] != c
      ensures w'.executed[k].sid !in w'.net.active && NoLive(w'.rooms, w'.executed[k].sid)
    {
      assert NoLive(w.rooms, w.executed[k].sid);
    }
  }

  /** Emptying slots is calm: with one slot each, losing the binding means losing the slot. */
  lemma LooseIsCalm(w: World, r: int, c': Scene)
    requires WorldOK(w) && NoDuplicates(w.rooms) && 0 <= r < ROOM_CAPACITY && Loosened(SceneAt(w, r), c')
    ensures Calm(w, WithScene(w, r, c'))
  {
    var w' := WithScene(w, r, c');
    forall q, i, s | Holds(w'.rooms, q, i, s)
      ensures Holds(w.rooms, q, i, s) && w'.rooms[q].members[i] == w.rooms[q].members[i]
    {
      if q == r { assert c'.room.members[i] == w.rooms[r].members[i] || !Filled(c'.room.members[i]); }
    }
    forall s | s in w.net.sessions && w'.net.sessions[s] != w.net.sessions[s]
      ensures NoLive(w'.rooms, s)
    {
      var k :| 0 <= k < PLAYERNUM && w.rooms[r].members[k].sid == s && Left(w.rooms[r].members[k], c'.room.members[k]);
      assert Holds(w.rooms, r, k, s);
    }
    forall s | s in w.net.sessions ensures Loose(w.net.sessions[s], w'.net.sessions[s]) {}
  }

  /** Changing ready flags, matches and leases is calm. */
  lemma StillIsCalm(w: World, w': World)
    requires |w'.rooms| == |w.rooms|
    requires forall r, i, s | Holds(w'.rooms, r, i, s) ::
               && Holds(w.rooms, r, i, s)
               && w'.rooms[r].members[i].token == w.rooms[r].members[i].token
               && (w'.rooms[r].members[i].connection == Connected ==> w.rooms[r].members[i].connection == Connected)
    requires OnlyMatchBound(w.net, w'.net) || w'.net == w.net
    requires w' == w.(rooms := w'.rooms, net := w'.net)
    ensures Calm(w, w')
  {
  }

  /** Retiring, moving and announcing are calm. */
  lemma RemoveIsCalm(w: World, sid: int)
    requires WorldOK(w)
    ensures Calm(w, w.(net := RequestRemove(w.net, sid)))
  {
    RequestRemoveEffect(w.net, sid);
    var w' := w.(net := RequestRemove(w.net, sid));
    if Found(w.net, sid) {
      assert Pending(w') == Pending(w) + [Disconnected(sid, w.net.sessions[sid].token)];
    }
  }

  lemma RetireIsCalm(w: World, sid: int)
    requires WorldOK(w)
    ensures Calm(w, w.(net := Retire(w.net, sid)))
    ensures Calm(w, w.(net := Move(w.net, sid)))
    ensures Calm(w, w.(net := Drain(w.net)))
  {
  }

  lemma PublishIsCalm(w: World, sid: int)
    requires WorldOK(w)
    ensures Calm(w, w.(net := Publish(w.net, sid)))
  {
    var w' := w.(net := Publish(w.net, sid));
    if w'.net != w.net {
      assert Pending(w') == Pending(w) + [Disconnected(sid, w.net.sessions[sid].token)];
    }
  }

  lemma CalmTransitive(a: World, b: World, c: World)
    requires Calm(a, b) && Calm(b, c)
    ensures Calm(a, c)
  {
    var p, q, t := Pending(a), Pending(b), Pending(c);
    assert t[..|p|] == t[..|q|][..|p|];
    forall k | |p| <= k < |t| ensures Announces(t[k], a.net) {
      if k < |q| { assert t[..|q|][k] == t[k]; assert Announces(q[k], a.net); } else { assert Announces(t[k], b.net); }
    }
    forall s | s in a.net.sessions && NoLive(b.rooms, s) ensures NoLive(c.rooms, s) {}
  }
}
