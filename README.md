# Planning-poker room: a Dafny model

This project models the per-room core of a planning-poker server: the
room that owns a set of connected clients, computes roster snapshots from
them, tallies votes and decides when to reveal them, fans messages out to
every client's outbound mailbox, and names itself with a random six-letter
identifier.

- `messages.dfy` (module `Messages`): the message envelope (`Event`,
  `Payload`, `GameMessage`), the roster records (`PlayerStatus`,
  `Observer`, `PlayerUpdate`), the `reveal` message, and the bounded
  mailbox. A mailbox is a sequence of pending messages, a capacity and a
  `closed` flag.
- `roomname.dfy` (module `RoomName`): the name generator.
  `StringWithCharset` fills a character array index by index.
  `CreateRoomName` asks it for six letters from `A`–`Z`. The random
  source is injected as the sequence of draws it would return.
- `room.dfy` (module `SocketRoom`): the `Client` record and the `Room`
  class. A client's id, name and observer flag are constants. Its vote
  (`currentPoint`) and mailbox (`send`) are fields that the room
  overwrites. The room's membership is a `set<Client>` field, which
  mirrors the server's map keyed by client pointer. Each read-only loop in
  the server is a method with loop invariants, proved against ghost
  predicates on the membership. Each case of the control loop is its own
  method (`Register`, `Unregister`, `Broadcast`), and so are `UpdateVote`
  and `ClearPoints`.
- `scenarios.dfy` (module `Scenarios`): walk-throughs that use only the
  room's contracts. One is a round with an observer and two players: the
  first vote does not reveal, the last missing vote does, a further vote
  reveals again, and clearing empties the votes. Another is a room of
  observers only, which reveals on every vote. The third is
  join, join, leave. The fourth is a broadcast that drops the member whose
  mailbox is full.

The server visits its client map in an unspecified order. So every loop
over the membership here picks its next client arbitrarily
(`var c :| c in todo`). Snapshots are specified by multiplicity: a snapshot
lists each record as many times as there are members showing it, in some
order (`IsPlayerSnapshot`, `IsObserverSnapshot`).

Blocking sends (join, leave, reveal) append to every member's mailbox.
The non-blocking send of a broadcast appends when the mailbox holds fewer
messages than its capacity. Otherwise it closes the mailbox and removes the
member.

Behaviour of `socketroom/room.go` that the model keeps as written:

- Quorum is `clientsVoted == countPlayers()` (room.go:143). With no
  players it holds vacuously, so a room of observers sends `reveal` on
  every vote (`QuorumWithoutPlayers`, `Scenarios.ObserverVoteReveals`).
- Nothing limits `reveal` to once per round (room.go:128-149). While every
  player has a vote, every further vote sends it again, until
  `clearPoints` runs (`Scenarios.RevealRepeatsUntilCleared`).
- `clearPoints` empties the vote of every member, observers included
  (room.go:170-175).
- In register A, register B, unregister A, client A is removed and its
  mailbox closed before the leave message goes out (room.go:100-112). A
  therefore sees two joins and then a closed mailbox. Only B sees the
  leave (`Scenarios.ALeaves`).
- Two snapshots of an unchanged room agree only up to order
  (`PlayerSnapshotsAgree`), because iteration order is unspecified.

## Model

| member | source | states |
|---|---|---|
| `RoomName.StringWithCharset` | socketroom/room.go:182-188 | The result has exactly `length` characters. The i-th is the charset character chosen by the i-th draw, so every character belongs to the charset. |
| `RoomName.CreateRoomName` | socketroom/room.go:190-192 | The name has six characters, each between `A` and `Z`, spelled from the first six draws. |
| `RoomName.CharsetIsAlphabet` | socketroom/room.go:178 | The charset has 26 letters, and the k-th is the k-th letter after `A`. |
| `RoomName.LetterIndices` | socketroom/room.go:178 | Reads back, from an upper-case name, one index per letter, each below 26. |
| `RoomName.LetterIndicesOfSpelled` | socketroom/room.go:182-188 | Reading back the letters of a spelled name gives exactly the draws it was spelled from. |
| `RoomName.SpelledFromLetterIndices` | socketroom/room.go:182-188 | Every upper-case string is the spelling of the indices read back from it. |
| `RoomName.SpellsIsOneToOne` | socketroom/room.go:182-192 | Two names spelled over the alphabet are equal if and only if their draws are equal. So the same draws always give the same name. |
| `SocketRoom.Room.constructor` | socketroom/room.go:43-57 | A new room has no members and keeps the given point scale. Its name is six upper-case letters spelled from the draws. |
| `SocketRoom.Room.SendPlayers` | socketroom/room.go:59-68 | Each status record occurs as often as there are non-observer members showing it (name, vote, id). Nothing else is listed, and the length is the number of players. |
| `SocketRoom.Room.SendObservers` | socketroom/room.go:70-79 | Each observer record occurs as often as there are observer members showing it (name, id). The length is the number of observers. |
| `SocketRoom.Room.CountPlayers` | socketroom/room.go:153-161 | The count is the number of non-observer members, which is the length of every player snapshot. |
| `SocketRoom.Room.CountVoted` | socketroom/room.go:135-142 | Counting players until the first one without a vote never exceeds the number of players. It equals that number if and only if every player has a non-empty vote, vacuously so when there are no players. |
| `SocketRoom.Room.UpdateVote` | socketroom/room.go:128-151 | Every non-observer member with the given id takes the point. Every other member keeps its vote, observers with that id included. Afterwards every member, observers too, gets `reveal` appended if and only if no player is left without a vote. Otherwise no mailbox changes. |
| `SocketRoom.Room.ClearPoints` | socketroom/room.go:170-175 | Every member's vote becomes empty, observers included. No mailbox or membership changes. If there is a player, the room is no longer at quorum. |
| `SocketRoom.Room.SendToAll` | socketroom/room.go:96-98 | A blocking fan-out: every member's mailbox gets the message appended, and every mailbox stays open. |
| `SocketRoom.Room.Register` | socketroom/room.go:85-98 | The client joins the membership. Every member, the newcomer included, gets one join message appended. Its roster is a player and an observer snapshot of the new membership, with the room's point scale. |
| `SocketRoom.Room.Unregister` | socketroom/room.go:100-112 | The client leaves the membership and its mailbox is closed, keeping its pending messages. Every remaining member gets one leave message appended, with snapshots of the remaining membership and no point scale. |
| `SocketRoom.Room.Broadcast` | socketroom/room.go:115-123 | The new membership is exactly the old members whose mailboxes had room. Each of those gets the message appended. Each member whose mailbox was full is closed, gets nothing, and is removed. |
| `SocketRoom.SnapshotsCoverMembership` | socketroom/room.go:59-79 | A player snapshot and an observer snapshot of one membership are together as long as the membership. |
| `SocketRoom.PlayerSnapshotMembership` | socketroom/room.go:59-68 | A record is in a player snapshot if and only if some non-observer member shows it, so observers are never listed as players and no player is missing. |
| `SocketRoom.ObserverSnapshotMembership` | socketroom/room.go:70-79 | A record is in an observer snapshot if and only if some observer member shows it. |
| `SocketRoom.PlayerSnapshotsAgree` | socketroom/room.go:59-68 | Two player snapshots of the same membership are permutations of each other. |
| `SocketRoom.ObserverSnapshotsAgree` | socketroom/room.go:70-79 | Two observer snapshots of the same membership are permutations of each other. |
| `SocketRoom.QuorumWithoutPlayers` | socketroom/room.go:143 | In a room of observers only, the quorum condition holds. |
| `Scenarios.JoinThree` | socketroom/room.go:85-98 | After three joins into an empty room, the first member has three new messages, the second two and the third one. No vote changes. |
| `Scenarios.JoinTwo` | socketroom/room.go:85-98 | After two joins into an empty room, the first member has both join messages and the second only the later one. The later message carries the room's point scale. |
| `Scenarios.FirstVoteWaitsLastReveals` | socketroom/room.go:128-149 | With an observer and two players and no votes, after P1's vote and then P2's the two votes are recorded and each of the three mailboxes has exactly one `reveal` appended. That the first vote alone changes no mailbox is asserted in the body. |
| `Scenarios.RevealRepeatsUntilCleared` | socketroom/room.go:128-175 | With every player already voted, a further vote appends `reveal` again to all three mailboxes. Clearing then empties both players' votes and leaves the room below quorum. |
| `Scenarios.ALeaves` | socketroom/room.go:100-112 | After A and B joined, A leaves. A's mailbox is closed and still holds exactly the two joins. B's holds its join and then one leave, whose roster lists B alone, no observers and no point scale. |
| `Scenarios.BroadcastDropsFull` | socketroom/room.go:115-123 | With A's mailbox full and B's not, a broadcast leaves B as the only member. A's mailbox is closed with its messages unchanged, and B's gets the message appended and stays open. |
| `Scenarios.ObserverVoteReveals` | socketroom/room.go:143-149 | In a room of one observer, that observer's vote is not recorded, and a `reveal` is appended to its mailbox. |

## Left out

- The goroutine, the `select` over channels and the channels themselves
  (room.go:82-126). Each case is a method, processed to completion. There
  is no concurrency.
- The game-action case and the dispatcher it calls (room.go:113-114).
  The dispatcher is external code, and the payload it decodes is opaque
  here.
- `CreateRoom`'s hand-off to the hub (room.go:55) and all console logging
  (room.go:44, 87, 144, 174). `ListClients` (room.go:164-168) only
  prints.
- The time-seeded random generator (room.go:180). The constructor and
  `CreateRoomName` take the draws as a parameter. Uniformity and seeding
  are not modelled.
- The transport draining a mailbox. A blocking send onto a full mailbox
  waits in the server until the transport makes room. Here it completes at
  once, so `pending` can then hold more messages than `capacity`.
- A non-blocking send onto a zero-capacity channel that succeeds because
  a reader is already waiting. Here such a mailbox never has room.
- Sends and closes on a closed mailbox, which panic in the server.
  `Register` requires the newcomer's mailbox to be open, because it sends
  the join message to every member on its channel, the newcomer's included
  (room.go:96-97). `Unregister` requires the leaving client's mailbox to be
  open, because closing a closed channel panics (room.go:102). Every
  mutating method requires and keeps `Valid()`, under which every member's
  mailbox is open, so the fan-out sends to members (room.go:97, 111, 147)
  never reach a closed one.
- RoomName.StringWithCharset: does not model a negative `length`, on which
  `make([]byte, length)` panics (room.go:183). The length is a `nat`, and
  the only caller passes 6 (room.go:191).
- `rand.Intn` panicking on an empty charset. The draws are required to
  index the charset.
- The client record, the message types and the event constants are
  declared in files that are not part of this model. Their shape here
  (fields, `pointScale` empty on leave) is inferred from their uses in
  room.go. The server's byte strings are modelled as sequences of
  characters.
