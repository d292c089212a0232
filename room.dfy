/** The per-room state of the planning-poker server: the membership set,
    the roster snapshots computed from it, the vote tally, and the effect
    of each case of the room's control loop (join, leave, broadcast). */
module SocketRoom {
  import opened Messages
  import RoomName

  /** One connected participant. Identity, name and the observer flag never
      change; the room overwrites the vote and pushes onto the mailbox. */
  class Client {
    const id: string
    const name: string
    const observer: bool
    var currentPoint: string
    var send: Mailbox

    constructor (id: string, name: string, observer: bool, capacity: nat)
      ensures this.id == id && this.name == name && this.observer == observer
      ensures currentPoint == "" && send == Mailbox([], capacity, false)
    {
      this.id := id;
      this.name := name;
      this.observer := observer;
      currentPoint := "";
      send := Mailbox([], capacity, false);
    }
  }

  // ---------------------------------------------------------------------
  // Views of a membership set

  /** The record a player is listed as. */
  ghost function StatusOf(c: Client): PlayerStatus
    reads c`currentPoint
  {
    PlayerStatus(c.name, c.currentPoint, c.id)
  }

  /** The record an observer is listed as. */
  ghost function ObserverOf(c: Client): Observer
  {
    Observer(c.name, c.id)
  }

  /** The voting members. */
  ghost function PlayerSet(s: set<Client>): set<Client>
  {
    set c | c in s && !c.observer
  }

  /** The observing members. */
  ghost function ObserverSet(s: set<Client>): set<Client>
  {
    set c | c in s && c.observer
  }

  /** The players that are listed as `p`. */
  ghost function PlayersShownAs(s: set<Client>, p: PlayerStatus): set<Client>
    reads s`currentPoint
  {
    set c | c in s && !c.observer && StatusOf(c) == p
  }

  /** The observers that are listed as `o`. */
  ghost function ObserversShownAs(s: set<Client>, o: Observer): set<Client>
  {
    set c | c in s && c.observer && ObserverOf(c) == o
  }

  /** `ps` lists every player of `s` exactly once and nothing else, in some
      order: each record occurs as often as there are players showing it. */
  ghost predicate IsPlayerSnapshot(ps: seq<PlayerStatus>, s: set<Client>)
    reads s`currentPoint
  {
    && |ps| == |PlayerSet(s)|
    && forall p :: multiset(ps)[p] == |PlayersShownAs(s, p)|
  }

  /** `os` lists every observer of `s` exactly once and nothing else, in some order. */
  ghost predicate IsObserverSnapshot(os: seq<Observer>, s: set<Client>)
  {
    && |os| == |ObserverSet(s)|
    && forall o :: multiset(os)[o] == |ObserversShownAs(s, o)|
  }

  /** Quorum: no player of `s` is still without a vote. */
  ghost predicate AllPlayersVoted(s: set<Client>)
    reads s`currentPoint
  {
    forall c :: c in s && !c.observer ==> c.currentPoint != ""
  }

  // ---------------------------------------------------------------------
  // Facts about the views

  /** Adding one client to a set adds it to the players listed as `p` if and only if it is one. */
  lemma PlayersShownAsStep(done: set<Client>, c: Client, p: PlayerStatus)
    requires c !in done
    ensures |PlayersShownAs(done + {c}, p)|
            == |PlayersShownAs(done, p)| + (if !c.observer && StatusOf(c) == p then 1 else 0)
  {
    if !c.observer && StatusOf(c) == p {
      assert PlayersShownAs(done + {c}, p) == PlayersShownAs(done, p) + {c};
    } else {
      assert PlayersShownAs(done + {c}, p) == PlayersShownAs(done, p);
    }
  }

  /** Adding one client to a set adds it to the observers listed as `o` if and only if it is one. */
  lemma ObserversShownAsStep(done: set<Client>, c: Client, o: Observer)
    requires c !in done
    ensures |ObserversShownAs(done + {c}, o)|
            == |ObserversShownAs(done, o)| + (if c.observer && ObserverOf(c) == o then 1 else 0)
  {
    if c.observer && ObserverOf(c) == o {
      assert ObserversShownAs(done + {c}, o) == ObserversShownAs(done, o) + {c};
    } else {
      assert ObserversShownAs(done + {c}, o) == ObserversShownAs(done, o);
    }
  }

  /** Adding one client to a set adds one player exactly when it is not an observer. */
  lemma PlayerSetStep(done: set<Client>, c: Client)
    requires c !in done
    ensures |PlayerSet(done + {c})| == |PlayerSet(done)| + (if c.observer then 0 else 1)
    ensures |ObserverSet(done + {c})| == |ObserverSet(done)| + (if c.observer then 1 else 0)
  {
    if c.observer {
      assert PlayerSet(done + {c}) == PlayerSet(done);
      assert ObserverSet(done + {c}) == ObserverSet(done) + {c};
    } else {
      assert PlayerSet(done + {c}) == PlayerSet(done) + {c};
      assert ObserverSet(done + {c}) == ObserverSet(done);
    }
  }

  /** A proper subset is smaller. */
  lemma SubsetSmaller<T>(a: set<T>, b: set<T>, x: T)
    requires a <= b && x in b && x !in a
    ensures |a| < |b|
  {
    assert a + {x} <= b;
    assert |b| == |b - (a + {x})| + |a + {x}|;
  }

  /** Every member is either a player or an observer, never both, so the
      two snapshots together are as long as the membership. */
  lemma SnapshotsCoverMembership(ps: seq<PlayerStatus>, os: seq<Observer>, s: set<Client>)
    requires IsPlayerSnapshot(ps, s) && IsObserverSnapshot(os, s)
    ensures |ps| + |os| == |s|
  {
    assert s == PlayerSet(s) + ObserverSet(s);
    assert PlayerSet(s) * ObserverSet(s) == {};
  }

  /** A player snapshot lists a record exactly when some player shows it:
      no observer is ever listed, and no player is missing. */
  lemma PlayerSnapshotMembership(ps: seq<PlayerStatus>, s: set<Client>, p: PlayerStatus)
    requires IsPlayerSnapshot(ps, s)
    ensures p in ps <==> exists c :: c in s && !c.observer && StatusOf(c) == p
  {
    if p in ps {
      assert multiset(ps)[p] > 0;
      var c :| c in PlayersShownAs(s, p);
    }
    forall c | c in s && !c.observer && StatusOf(c) == p
      ensures p in ps
    {
      assert c in PlayersShownAs(s, p);
    }
  }

  /** An observer snapshot lists a record exactly when some observer shows it. */
  lemma ObserverSnapshotMembership(os: seq<Observer>, s: set<Client>, o: Observer)
    requires IsObserverSnapshot(os, s)
    ensures o in os <==> exists c :: c in s && c.observer && ObserverOf(c) == o
  {
    if o in os {
      assert multiset(os)[o] > 0;
      var c :| c in ObserversShownAs(s, o);
    }
    forall c | c in s && c.observer && ObserverOf(c) == o
      ensures o in os
    {
      assert c in ObserversShownAs(s, o);
    }
  }

  /** Two player snapshots of the same membership differ at most in order. */
  lemma PlayerSnapshotsAgree(ps1: seq<PlayerStatus>, ps2: seq<PlayerStatus>, s: set<Client>)
    requires IsPlayerSnapshot(ps1, s) && IsPlayerSnapshot(ps2, s)
    ensures multiset(ps1) == multiset(ps2)
  {
    assert forall p :: multiset(ps1)[p] == multiset(ps2)[p];
  }

  /** Two observer snapshots of the same membership differ at most in order. */
  lemma ObserverSnapshotsAgree(os1: seq<Observer>, os2: seq<Observer>, s: set<Client>)
    requires IsObserverSnapshot(os1, s) && IsObserverSnapshot(os2, s)
    ensures multiset(os1) == multiset(os2)
  {
    assert forall o :: multiset(os1)[o] == multiset(os2)[o];
  }

  /** With no players the quorum holds vacuously: a room of observers reveals on every vote. */
  lemma QuorumWithoutPlayers(s: set<Client>)
    requires forall c :: c in s ==> c.observer
    ensures AllPlayersVoted(s)
  {
  }

  // ---------------------------------------------------------------------
  // The room

  class Room {
    const name: string
    const pointScale: string
    var clients: set<Client>

    /** Every member's mailbox is still open: the room closes a mailbox only
        when it removes the member. */
    ghost predicate Valid()
      reads this, clients`send
    {
      forall c :: c in clients ==> !c.send.closed
    }

    /** A new, empty room named from six draws of the injected random source. */
    constructor (pointScale: string, draws: seq<nat>)
      requires RoomName.ValidDraws(draws, RoomName.NameLength, RoomName.Charset)
      ensures Valid() && clients == {} && this.pointScale == pointScale
      ensures |name| == RoomName.NameLength
      ensures forall i :: 0 <= i < |name| ==> 'A' <= name[i] <= 'Z'
      ensures RoomName.Spells(name, RoomName.Charset, draws[..RoomName.NameLength])
    {
      var n := RoomName.CreateRoomName(draws);
      name := n;
      this.pointScale := pointScale;
      clients := {};
    }

    /** The players' records, in whatever order the membership is visited. */
    method SendPlayers() returns (ps: seq<PlayerStatus>)
      ensures IsPlayerSnapshot(ps, clients)
    {
      ps := [];
      var todo := clients;
      ghost var done: set<Client> := {};
      while todo != {}
        invariant done + todo == clients && done * todo == {}
        invariant IsPlayerSnapshot(ps, done)
        decreases todo
      {
        var c :| c in todo;
        if !c.observer {
          ps := ps + [PlayerStatus(c.name, c.currentPoint, c.id)];
        }
        forall p
          ensures multiset(ps)[p] == |PlayersShownAs(done + {c}, p)|
        {
          PlayersShownAsStep(done, c, p);
        }
        PlayerSetStep(done, c);
        done, todo := done + {c}, todo - {c};
      }
    }

    /** The observers' records, in whatever order the membership is visited. */
    method SendObservers() returns (os: seq<Observer>)
      ensures IsObserverSnapshot(os, clients)
    {
      os := [];
      var todo := clients;
      ghost var done: set<Client> := {};
      while todo != {}
        invariant done + todo == clients && done * todo == {}
        invariant IsObserverSnapshot(os, done)
        decreases todo
      {
        var c :| c in todo;
        if c.observer {
          os := os + [Observer(c.name, c.id)];
        }
        forall o
          ensures multiset(os)[o] == |ObserversShownAs(done + {c}, o)|
        {
          ObserversShownAsStep(done, c, o);
        }
        PlayerSetStep(done, c);
        done, todo := done + {c}, todo - {c};
      }
    }

    /** The number of players. */
    method CountPlayers() returns (n: nat)
      ensures n == |PlayerSet(clients)|
    {
      n := 0;
      var todo := clients;
      ghost var done: set<Client> := {};
      while todo != {}
        invariant done + todo == clients && done * todo == {}
        invariant n == |PlayerSet(done)|
        decreases todo
      {
        var c :| c in todo;
        if !c.observer {
          n := n + 1;
        }
        PlayerSetStep(done, c);
        done, todo := done + {c}, todo - {c};
      }
    }

    /** The tally: players counted in visiting order until the first one
        without a vote. It reaches the number of players exactly when all
        of them have voted. */
    method CountVoted() returns (voted: nat)
      ensures voted <= |PlayerSet(clients)|
      ensures voted == |PlayerSet(clients)| <==> AllPlayersVoted(clients)
    {
      voted := 0;
      var todo := clients;
      ghost var done: set<Client> := {};
      while todo != {}
        invariant done + todo == clients && done * todo == {}
        invariant voted == |PlayerSet(done)|
        invariant AllPlayersVoted(done)
        decreases todo
      {
        var c :| c in todo;
        if !c.observer {
          if c.currentPoint == "" {
            assert c in PlayerSet(clients) && PlayerSet(done) <= PlayerSet(clients);
            SubsetSmaller(PlayerSet(done), PlayerSet(clients), c);
            assert !AllPlayersVoted(clients);
            break;
          }
          voted := voted + 1;
        }
        PlayerSetStep(done, c);
        done, todo := done + {c}, todo - {c};
      }
      assert todo == {} ==> done == clients;
    }

    /** A blocking send of `msg` to every member, each of which receives it. */
    method SendToAll(msg: GameMessage)
      requires Valid()
      modifies clients`send
      ensures Valid()
      ensures forall c :: c in clients ==> c.send == Push(old(c.send), msg)
    {
      var todo := clients;
      while todo != {}
        invariant todo <= clients
        invariant forall c :: c in clients && c !in todo ==> c.send == Push(old(c.send), msg)
        invariant forall c :: c in todo ==> c.send == old(c.send)
        decreases todo
      {
        var c :| c in todo;
        c.send := Push(c.send, msg);
        todo := todo - {c};
      }
    }

    /** Join: add the client, then send every member, the newcomer included,
        a join message with the fresh roster and the room's point scale. */
    method Register(client: Client) returns (ghost joinMsg: GameMessage)
      requires Valid()
      requires !client.send.closed
      modifies this`clients, clients`send, client`send
      ensures Valid()
      ensures clients == old(clients) + {client}
      ensures joinMsg.event == JoinRoom && joinMsg.payload.Roster?
      ensures IsPlayerSnapshot(joinMsg.payload.update.players, clients)
      ensures IsObserverSnapshot(joinMsg.payload.update.observers, clients)
      ensures joinMsg.payload.update.pointScale == pointScale
      ensures forall c :: c in clients ==> c.send == Push(old(c.send), joinMsg)
    {
      clients := clients + {client};
      var ps := SendPlayers();
      var os := SendObservers();
      var msg := GameMessage(JoinRoom, Roster(PlayerUpdate(ps, os, pointScale)));
      SendToAll(msg);
      joinMsg := msg;
    }

    /** Leave: remove the client and close its mailbox, then send every
        remaining member a leave message with the fresh roster and no point scale. */
    method Unregister(client: Client) returns (ghost leaveMsg: GameMessage)
      requires Valid()
      requires !client.send.closed
      modifies this`clients, clients`send, client`send
      ensures Valid()
      ensures clients == old(clients) - {client}
      ensures client.send == Close(old(client.send))
      ensures leaveMsg.event == LeaveRoom && leaveMsg.payload.Roster?
      ensures IsPlayerSnapshot(leaveMsg.payload.update.players, clients)
      ensures IsObserverSnapshot(leaveMsg.payload.update.observers, clients)
      ensures leaveMsg.payload.update.pointScale == ""
      ensures forall c :: c in clients ==> c.send == Push(old(c.send), leaveMsg)
    {
      clients := clients - {client};
      client.send := Close(client.send);
      var ps := SendPlayers();
      var os := SendObservers();
      var msg := GameMessage(LeaveRoom, Roster(PlayerUpdate(ps, os, "")));
      SendToAll(msg);
      leaveMsg := msg;
    }

    /** Broadcast: a non-blocking send to every member. A member whose
        mailbox has room gets the message; one whose mailbox is full is
        closed and removed and gets nothing. */
    method Broadcast(msg: GameMessage)
      requires Valid()
      modifies this`clients, clients`send
      ensures Valid()
      ensures clients == set c | c in old(clients) && HasRoom(old(c.send))
      ensures forall c :: c in old(clients) ==>
                c.send == if HasRoom(old(c.send)) then Push(old(c.send), msg) else Close(old(c.send))
    {
      ghost var members := clients;
      var todo := clients;
      while todo != {}
        invariant todo <= members
        invariant clients == set c | c in members && (c in todo || HasRoom(old(c.send)))
        invariant forall c :: c in members && c !in todo ==>
                    c.send == if HasRoom(old(c.send)) then Push(old(c.send), msg) else Close(old(c.send))
        invariant forall c :: c in todo ==> c.send == old(c.send)
        decreases todo
      {
        var c :| c in todo;
        if HasRoom(c.send) {
          c.send := Push(c.send, msg);
        } else {
          c.send := Close(c.send);
          clients := clients - {c};
        }
        todo := todo - {c};
      }
    }

    /** A vote: every player with this id takes the point; then, if no
        player is left without a vote, every member is sent a reveal. */
    method UpdateVote(point: string, id: string)
      requires Valid()
      modifies clients`currentPoint, clients`send
      ensures Valid()
      ensures forall c :: c in clients ==>
                c.currentPoint == if c.id == id && !c.observer then point else old(c.currentPoint)
      ensures forall c :: c in clients ==>
                c.send == if AllPlayersVoted(clients) then Push(old(c.send), RevealMessage) else old(c.send)
    {
      var todo := clients;
      while todo != {}
        invariant todo <= clients
        invariant forall c :: c in clients && c !in todo ==>
                    c.currentPoint == if c.id == id && !c.observer then point else old(c.currentPoint)
        invariant forall c :: c in todo ==> c.currentPoint == old(c.currentPoint)
        modifies clients`currentPoint
        decreases todo
      {
        var c :| c in todo;
        if c.id == id && !c.observer {
          c.currentPoint := point;
        }
        todo := todo - {c};
      }
      var voted := CountVoted();
      var players := CountPlayers();
      if voted == players {
        SendToAll(RevealMessage);
      }
    }

    /** Reset the round: every member's vote becomes empty. */
    method ClearPoints()
      requires Valid()
      modifies clients`currentPoint
      ensures Valid()
      ensures forall c :: c in clients ==> c.currentPoint == ""
      ensures PlayerSet(clients) != {} ==> !AllPlayersVoted(clients)
    {
      var todo := clients;
      while todo != {}
        invariant todo <= clients
        invariant forall c :: c in clients && c !in todo ==> c.currentPoint == ""
        decreases todo
      {
        var c :| c in todo;
        c.currentPoint := "";
        todo := todo - {c};
      }
      if PlayerSet(clients) != {} {
        var p :| p in PlayerSet(clients);
      }
    }
  }
}
