/** What comes of one packet, step by step, while no other thread comes in between; and what the owner drains. */
module Handling {
  import opened RoomCommand
  import opened SessionSpec
  import opened MatchSpec
  import opened RoomSpec
  import opened Protocol
  import opened ServerInvariant

  /** An active session is gone from the table's active part: retired, unbound, and announced with its token. */
  ghost predicate Removes(n: Net, n': Net, sid: int) {
    if sid in n.active && sid in n.sessions then
      && n'.active == n.active - {sid}
      && n'.sessions == n.sessions[sid := n.sessions[sid].(retired := true, binding := UNBOUND)]
      && n'.lobby == n.lobby + [Disconnected(sid, n.sessions[sid].token)]
      && n'.accepting == n.accepting && n'.leaving == n.leaving
    else n' == n
  }

  /** Entering a room that does not exist costs the session its place. */
  lemma NoSuchRoom(w: World, sid: int, r: int, sendFails: bool)
    requires Shaped(w) && NetOK(w.net) && !IsValidRoom(r)
    ensures var w' := ExecuteLobby(w, Enter(sid, r), sendFails);
            w' == w.(net := w'.net) && Removes(w.net, w'.net, sid)
  {
    RequestRemoveEffect(w.net, sid);
    assert RequestRemove(w.net, sid).accepting == w.net.accepting;
  }

  /** So does a greeting that cannot be sent; one that can changes nothing. */
  lemma GreetingFails(w: World, sid: int, sendFails: bool)
    requires Shaped(w) && NetOK(w.net)
    ensures var w' := ExecuteLobby(w, SessionConnected(sid), sendFails);
            w' == w.(net := w'.net) && (if sendFails then Removes(w.net, w'.net, sid) else w' == w)
  {
    RequestRemoveEffect(w.net, sid);
    assert RequestRemove(w.net, sid).accepting == w.net.accepting;
  }

  /** A login gives a session without a token a new one; a session that has one keeps it. */
  lemma LoginsKeepTokens(w: World, sid: int, newToken: nat)
    requires Shaped(w) && Enabled(w, LoginReadStep(sid, newToken))
    ensures var w1 := Apply(w, LoginReadStep(sid, newToken));
            Enabled(w1, LoginWriteStep(sid)) &&
            var w2 := Apply(w1, LoginWriteStep(sid));
            && HandlerOf(w2, sid) == Waiting && w2.rooms == w.rooms
            && w2.net == w.net.(sessions := w.net.sessions[sid := w.net.sessions[sid].(
                 token := if w.net.sessions[sid].token == 0 then newToken else w.net.sessions[sid].token)])
  {
  }

  /** An Exit asks to leave the room that the session is bound to, and unbinds it, unless the queue refuses. */
  lemma ExitsUnbind(w: World, sid: int)
    requires Shaped(w) && Enabled(w, ExitReadStep(sid))
    ensures var w1 := Apply(w, ExitReadStep(sid));
            Enabled(w1, ExitQueueStep(sid)) &&
            var w2 := Apply(w1, ExitQueueStep(sid));
            var c := Exit(sid, w.net.sessions[sid].binding.room);
            if |w.net.lobby| >= w.net.lobbyCapacity then HandlerOf(w2, sid) == Waiting && w2.net == w.net
            else Enabled(w2, ExitClearStep(sid)) &&
                 var w3 := Apply(w2, ExitClearStep(sid));
                 && HandlerOf(w3, sid) == Waiting && w3.rooms == w.rooms
                 && w3.net == w.net.(lobby := w.net.lobby + [c],
                                     sessions := w.net.sessions[sid := w.net.sessions[sid].(binding := UNBOUND)])
  {
  }

  /** A game packet is queued under the binding its session has, unless there is none or the queue is full. */
  lemma GamePacketsQueue(w: World, sid: int, packet: GamePacket)
    requires Shaped(w) && Enabled(w, GameReadStep(sid))
    ensures var w1 := Apply(w, GameReadStep(sid));
            var b := w.net.sessions[sid].binding;
            if b.room == -1 then w1 == w
            else Enabled(w1, GameQueueStep(sid, packet)) &&
                 var w2 := Apply(w1, GameQueueStep(sid, packet));
                 && HandlerOf(w2, sid) == Waiting && w2.rooms == w.rooms && w2.net == w.net
                 && w2.game == if |w.game| < w.gameCapacity then w.game + [GameCommand(sid, b.room, b.lease, packet)]
                               else w.game
  {
  }

  /** The owner takes up to 512 commands off the front of a queue, and leaves the rest. */
  lemma OwnerDrains(w: World)
    requires Shaped(w)
    ensures w.batch == [] ==>
              var w' := Apply(w, DrainLobbyStep);
              w'.batch + w'.net.lobby == w.net.lobby && |w'.batch| == if |w.net.lobby| < 512 then |w.net.lobby| else 512
    ensures w.gameBatch == [] ==>
              var w' := Apply(w, DrainGameStep);
              w'.gameBatch + w'.game == w.game && |w'.gameBatch| == if |w.game| < 512 then |w.game| else 512
  {
  }
}
