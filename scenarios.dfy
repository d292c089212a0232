/** Walk-throughs of a room from a caller's side: what follows from the
    contracts of the room's operations alone. Each walk-through allocates
    its room and clients and then hands them to steps whose requires
    describe the state they start from. */
module Scenarios {
  import opened Messages
  import opened SocketRoom

  /** Two clients with open mailboxes join an empty room, in this order. */
  method JoinTwo(room: Room, a: Client, b: Client) returns (ghost join1: GameMessage, ghost join2: GameMessage)
    requires room.Valid() && room.clients == {}
    requires !a.send.closed && !b.send.closed && a != b
    modifies room, a, b
    ensures room.Valid() && room.clients == {a, b}
    ensures a.send == old(a.send).(pending := old(a.send.pending) + [join1, join2])
    ensures b.send == old(b.send).(pending := old(b.send.pending) + [join2])
    ensures join1.event == JoinRoom && join2.event == JoinRoom && join2.payload.Roster?
    ensures join2.payload.update.pointScale == room.pointScale
    ensures a.currentPoint == old(a.currentPoint) && b.currentPoint == old(b.currentPoint)
  {
    join1 := room.Register(a);
    join2 := room.Register(b);
  }

  /** Three clients with open mailboxes join an empty room, in this order;
      each member gets one join message per arrival from its own on. */
  method JoinThree(room: Room, a: Client, b: Client, c: Client)
    requires room.Valid() && room.clients == {}
    requires !a.send.closed && !b.send.closed && !c.send.closed
    requires a != b && a != c && b != c
    modifies room, a, b, c
    ensures room.Valid() && room.clients == {a, b, c}
    ensures |a.send.pending| == |old(a.send.pending)| + 3
    ensures |b.send.pending| == |old(b.send.pending)| + 2
    ensures |c.send.pending| == |old(c.send.pending)| + 1
    ensures a.currentPoint == old(a.currentPoint)
    ensures b.currentPoint == old(b.currentPoint) && c.currentPoint == old(c.currentPoint)
  {
    var _ := room.Register(a);
    var _ := room.Register(b);
    var _ := room.Register(c);
  }

  /** P1's vote does not reveal; P2's, the last one missing, does. */
  method FirstVoteWaitsLastReveals(room: Room, o: Client, p1: Client, p2: Client)
    requires room.Valid() && room.clients == {o, p1, p2}
    requires o.observer && !p1.observer && !p2.observer
    requires p1.id == "p1" && p2.id == "p2"
    requires p1.currentPoint == "" && p2.currentPoint == ""
    modifies room.clients`currentPoint, room.clients`send
    ensures room.Valid() && p1.currentPoint == "3" && p2.currentPoint == "5"
    ensures o.send.pending == old(o.send.pending) + [RevealMessage]
    ensures p1.send.pending == old(p1.send.pending) + [RevealMessage]
    ensures p2.send.pending == old(p2.send.pending) + [RevealMessage]
  {
    ghost var o0, p10, p20 := o.send.pending, p1.send.pending, p2.send.pending;
    room.UpdateVote("3", "p1");
    assert p1.currentPoint == "3" && p2.currentPoint == "" && p2 in room.clients;
    assert !AllPlayersVoted(room.clients);
    assert o.send.pending == o0 && p1.send.pending == p10 && p2.send.pending == p20;

    room.UpdateVote("5", "p2");
    assert p1.id != "p2" by { assert p1.id[1] != "p2"[1]; }
    assert p1.currentPoint == "3" && p2.currentPoint == "5";
    assert AllPlayersVoted(room.clients) by {
      forall c | c in room.clients && !c.observer
        ensures c.currentPoint != ""
      {
        assert c == p1 || c == p2;
      }
    }
    assert o.send.pending == o0 + [RevealMessage];
    assert p1.send.pending == p10 + [RevealMessage];
    assert p2.send.pending == p20 + [RevealMessage];
  }

  /** Once every player has voted, any further vote reveals again, until
      the round is cleared. */
  method RevealRepeatsUntilCleared(room: Room, o: Client, p1: Client, p2: Client)
    requires room.Valid() && room.clients == {o, p1, p2}
    requires o.observer && !p1.observer && !p2.observer
    requires p1.id == "p1" && p1.currentPoint != "" && p2.currentPoint != ""
    modifies room.clients`currentPoint, room.clients`send
    ensures room.Valid() && room.clients == {o, p1, p2}
    ensures o.send.pending == old(o.send.pending) + [RevealMessage]
    ensures p1.send.pending == old(p1.send.pending) + [RevealMessage]
    ensures p2.send.pending == old(p2.send.pending) + [RevealMessage]
    ensures p1.currentPoint == "" && p2.currentPoint == ""
    ensures !AllPlayersVoted(room.clients)
  {
    room.UpdateVote("8", "p1");
    assert p1.currentPoint == "8";
    assert AllPlayersVoted(room.clients) by {
      forall c | c in room.clients && !c.observer
        ensures c.currentPoint != ""
      {
        assert c == p1 || c == p2;
      }
    }

    room.ClearPoints();
    assert p1.currentPoint == "" && p2.currentPoint == "";
    assert !AllPlayersVoted(room.clients);
  }

  /** Observer O and players P1, P2 join a room with scale 1,2,3,5,8 and
      play one round. */
  method VotingRound() {
    var room := new Room("1,2,3,5,8", [0, 1, 2, 3, 4, 5]);
    var o := new Client("o", "Olive", true, 256);
    var p1 := new Client("p1", "Pat", false, 256);
    var p2 := new Client("p2", "Sam", false, 256);
    JoinThree(room, o, p1, p2);
    FirstVoteWaitsLastReveals(room, o, p1, p2);
    RevealRepeatsUntilCleared(room, o, p1, p2);
  }

  /** In a room of observers only, any vote sends a reveal, and the
      observer's own vote is not recorded. */
  method ObserverVoteReveals(room: Room, o: Client)
    requires room.Valid() && room.clients == {o} && o.observer
    modifies room.clients`currentPoint, room.clients`send
    ensures o.currentPoint == old(o.currentPoint)
    ensures o.send.pending == old(o.send.pending) + [RevealMessage]
  {
    room.UpdateVote("3", o.id);
    QuorumWithoutPlayers(room.clients);
  }

  method ObserversOnly() {
    var room := new Room("1,2,3", [25, 25, 25, 25, 25, 25]);
    var o := new Client("o", "Olive", true, 256);
    var _ := room.Register(o);
    ObserverVoteReveals(room, o);
    assert o.send.pending[1] == RevealMessage;
  }

  /** After A and B joined, A leaves: A saw both joins and is closed; B saw
      its own join and then a leave that lists B alone. */
  method ALeaves(room: Room, a: Client, b: Client, ghost join1: GameMessage, ghost join2: GameMessage)
      returns (ghost leave: GameMessage)
    requires room.Valid() && room.clients == {a, b} && a != b
    requires a.send == Mailbox([join1, join2], 256, false) && b.send == Mailbox([join2], 256, false)
    requires !b.observer && b.name == "Bo" && b.id == "b" && b.currentPoint == ""
    modifies room, a, b
    ensures room.Valid() && room.clients == {b}
    ensures a.send == Mailbox([join1, join2], 256, true)
    ensures b.send == Mailbox([join2, leave], 256, false)
    ensures leave.event == LeaveRoom && leave.payload.Roster?
    ensures leave.payload.update.players == [PlayerStatus("Bo", "", "b")]
    ensures leave.payload.update.observers == [] && leave.payload.update.pointScale == ""
  {
    leave := room.Unregister(a);
    assert room.clients == {b};

    var left := leave.payload.update.players;
    assert PlayerSet({b}) == {b};
    assert |left| == 1;
    PlayerSnapshotMembership(left, {b}, left[0]);
    assert left == [PlayerStatus("Bo", "", "b")];
    assert ObserverSet({b}) == {};
  }

  method JoinJoinLeave() {
    var room := new Room("1,2,3", [7, 7, 7, 7, 7, 7]);
    var a := new Client("a", "Ann", false, 256);
    var b := new Client("b", "Bo", false, 256);
    ghost var join1, join2 := JoinTwo(room, a, b);
    assert join2.payload.update.pointScale == "1,2,3";
    ghost var _ := ALeaves(room, a, b, join1, join2);
  }

  /** A broadcast drops the member whose mailbox is full and reaches the other. */
  method BroadcastDropsFull(room: Room, a: Client, b: Client, msg: GameMessage)
    requires room.Valid() && room.clients == {a, b} && a != b
    requires !HasRoom(a.send) && HasRoom(b.send)
    modifies room, a, b
    ensures room.Valid() && room.clients == {b}
    ensures a.send == Close(old(a.send))
    ensures b.send == Push(old(b.send), msg) && !b.send.closed
  {
    room.Broadcast(msg);
    assert room.clients == {b};
  }

  method FullMailboxIsDropped(msg: GameMessage) {
    var room := new Room("1,2,3", [1, 2, 3, 4, 5, 6]);
    var b := new Client("b", "Bo", false, 256);
    var a := new Client("a", "Ann", false, 1);
    ghost var _, _ := JoinTwo(room, b, a);
    BroadcastDropsFull(room, a, b, msg);
  }
}
