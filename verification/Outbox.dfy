/** A bounded channel and the goroutine that writes it to a websocket.  The master has one per agent
    connection (master/main.go, master/websocket.go agentWriter), the agent has one for everything
    it reports (agent/agent.go writer). */
module Outbox {
  import opened Options

  const CAPACITY := 256

  datatype Message = Message(text: string)

  /** `accepted` is everything that ever entered the channel; `writing` is the message the writer
      holds between its receive and the end of its write. */
  datatype Outbox = Outbox(
    queue: seq<Message>, accepted: seq<Message>,
    writing: Option<Message>, written: seq<Message>, lost: seq<Message>,
    exited: bool, closeSent: bool)
  {
    predicate HasRoom() {
      |queue| < CAPACITY
    }

    function Push(m: Message): Outbox {
      this.(queue := queue + [m], accepted := accepted + [m])
    }

    predicate CanTake() {
      !exited && writing.None? && queue != []
    }

    function Take(): Outbox
      requires CanTake()
    {
      this.(queue := queue[1..], writing := Some(queue[0]))
    }

    /** A failed write loses the message and ends the writer. */
    function Wrote(ok: bool): Outbox
      requires writing.Some?
    {
      if ok then this.(writing := None, written := written + [writing.value])
      else this.(writing := None, lost := lost + [writing.value], exited := true)
    }

    /** The receive from a closed, drained channel; the writer sends the close frame and ends. */
    predicate CanClose(closed: bool) {
      closed && !exited && writing.None? && queue == []
    }

    function WroteClose(ok: bool): Outbox {
      this.(exited := true, closeSent := ok)
    }

    predicate CanPing() {
      !exited && writing.None?
    }

    function PingFailed(): Outbox {
      this.(exited := true)
    }

    function Holding(): seq<Message> {
      if writing.Some? then [writing.value] else []
    }

    /** Nothing is duplicated, reordered or silently dropped: what was accepted is what was written,
        at most one message that a failed write lost, what is being written, and what still waits. */
    ghost predicate Conserves(closed: bool) {
      && accepted == written + lost + Holding() + queue
      && |queue| <= CAPACITY
      && |lost| <= 1 && (lost != [] ==> exited)
      && (exited ==> writing.None?)
      && (closeSent ==> exited && closed && queue == [] && lost == [])
    }
  }

  const EMPTY := Outbox([], [], None, [], [], false, false)

  lemma PushConserves(b: Outbox, closed: bool, m: Message)
    requires b.Conserves(closed) && b.HasRoom() && !closed
    ensures b.Push(m).Conserves(closed)
  {
    assert b.accepted + [m] == b.written + b.lost + b.Holding() + (b.queue + [m]);
  }

  lemma TakeConserves(b: Outbox, closed: bool)
    requires b.Conserves(closed) && b.CanTake()
    ensures b.Take().Conserves(closed)
  {
    assert b.queue == [b.queue[0]] + b.queue[1..];
  }

  lemma WroteConserves(b: Outbox, closed: bool, ok: bool)
    requires b.Conserves(closed) && b.writing.Some?
    ensures b.Wrote(ok).Conserves(closed)
  {
    assert b.lost == [];
    assert b.accepted == b.written + ([b.writing.value] + b.queue);
  }

  /** The close frame goes out only after every accepted message. */
  lemma ClosedMeansAllWritten(b: Outbox, closed: bool)
    requires b.Conserves(closed) && b.closeSent
    ensures b.written == b.accepted
  {
  }
}
