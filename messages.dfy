/** Messages a room sends to its clients, the roster records they carry,
    and the bounded outbound mailbox each client owns. */
module Messages {

  /** The event tag of a game message; `Action` stands for the
      application-defined tags the room only passes through. */
  datatype Event = JoinRoom | LeaveRoom | RevealPoints | Action(tag: string)

  /** One voting member as shown to everybody: name, current vote, id. */
  datatype PlayerStatus = PlayerStatus(name: string, currentPoint: string, id: string)

  /** One observing member: name and id, no vote. */
  datatype Observer = Observer(name: string, id: string)

  /** The roster snapshot broadcast on join and leave. A leave snapshot
      carries no point scale, which is the empty string here, as the
      unset field of the server's record. */
  datatype PlayerUpdate = PlayerUpdate(players: seq<PlayerStatus>, observers: seq<Observer>, pointScale: string)

  /** The body of a message: nothing, a roster, or bytes the room never decodes. */
  datatype Payload = NoPayload | Roster(update: PlayerUpdate) | Opaque(raw: seq<bv8>)

  datatype GameMessage = GameMessage(event: Event, payload: Payload)

  /** The message sent when every player has voted. */
  const RevealMessage := GameMessage(RevealPoints, NoPayload)

  /** A client's outbound channel: the messages handed to it and not yet
      read by the transport, its buffer size, and whether it was closed. */
  datatype Mailbox = Mailbox(pending: seq<GameMessage>, capacity: nat, closed: bool)

  /** A non-blocking send succeeds exactly when the buffer has a free slot. */
  predicate HasRoom(m: Mailbox)
  {
    |m.pending| < m.capacity
  }

  /** Hands `msg` to the mailbox; used both for a send that waited and for
      a non-blocking send that found room. */
  function Push(m: Mailbox, msg: GameMessage): Mailbox
  {
    m.(pending := m.pending + [msg])
  }

  /** Closes the mailbox; messages already buffered stay readable. */
  function Close(m: Mailbox): Mailbox
  {
    m.(closed := true)
  }
}
