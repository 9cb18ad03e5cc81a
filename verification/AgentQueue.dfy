/** The agent's outgoing queue (agent/agent.go): sendMessage never blocks, so it drops a message when
    the channel is full; one writer goroutine drains the channel. */
module AgentQueue {
  import opened Options
  import opened Outbox

  /** The messages offered so far, and whether each got into the channel. */
  datatype Offers = Offers(messages: seq<Message>, kept: seq<bool>)
  {
    ghost predicate Valid() {
      |messages| == |kept|
    }

    function Add(m: Message, k: bool): Offers {
      Offers(messages + [m], kept + [k])
    }
  }

  function Select(messages: seq<Message>, marks: seq<bool>, mark: bool): seq<Message>
    requires |messages| == |marks|
  {
    if messages == [] then []
    else
      var n := |messages| - 1;
      Select(messages[..n], marks[..n], mark) + if marks[n] == mark then [messages[n]] else []
  }

  /** s appears in t in order. */
  ghost predicate Subsequence(s: seq<Message>, t: seq<Message>) {
    exists marks :: |marks| == |t| && s == Select(t, marks, true)
  }

  class Agent {
    var send: seq<Message>
    var stopped: bool
    var writing: Option<Message>
    var writerExited: bool
    ghost var offers: Offers
    ghost var written: seq<Message>
    ghost var lost: seq<Message>

    ghost function Box(): Outbox
      reads this
      requires offers.Valid()
    {
      Outbox(send, Select(offers.messages, offers.kept, true), writing, written, lost, writerExited, false)
    }

    ghost predicate Valid()
      reads this
    {
      offers.Valid() && Box().Conserves(false)
    }

    constructor ()
      ensures Valid() && !stopped && offers == Offers([], []) && Box() == EMPTY
    {
      send, stopped, writing, writerExited := [], false, None, false;
      offers, written, lost := Offers([], []), [], [];
    }

    method Stop()
      requires Valid()
      modifies this`stopped
      ensures Valid() && stopped && offers == old(offers) && Box() == old(Box())
    {
      stopped := true;
    }

    /** After Stop nothing is offered; otherwise the message is kept exactly when there is room. */
    method SendMessage(m: Message)
      requires Valid()
      modifies this`send, this`offers
      ensures Valid()
      ensures stopped ==> offers == old(offers) && Box() == old(Box())
      ensures !stopped ==>
        && offers == old(offers).Add(m, |old(send)| < 256)
        && Box() == (if old(Box()).HasRoom() then old(Box()).Push(m) else old(Box()))
    {
      if stopped {
        return;
      }
      Offer(m);
    }

    /** The select of sendMessage.  The mutex is free by then, so Stop may come in between. */
    method Offer(m: Message)
      requires Valid()
      modifies this`send, this`offers
      ensures Valid()
      ensures offers == old(offers).Add(m, |old(send)| < 256)
      ensures Box() == (if old(Box()).HasRoom() then old(Box()).Push(m) else old(Box()))
    {
      ghost var before, box := offers, Box();
      offers := offers.Add(m, |send| < CAPACITY);
      assert offers.messages[..|before.messages|] == before.messages && offers.kept[..|before.kept|] == before.kept;
      if |send| < CAPACITY {
        PushConserves(box, false, m);
        send := send + [m];
      }
      assert Box() == if box.HasRoom() then box.Push(m) else box;
    }

    /** The writer's select receives a message; other goroutines may run before it is written. */
    method WriterReceive()
      requires Valid() && Box().CanTake()
      modifies this`send, this`writing
      ensures Valid() && offers == old(offers) && Box() == old(Box()).Take()
    {
      TakeConserves(Box(), false);
      writing, send := Some(send[0]), send[1..];
    }

    method WriterWrite() returns (ok: bool)
      requires Valid() && Box().writing.Some?
      modifies this`writing, this`writerExited, this`written, this`lost
      ensures Valid() && offers == old(offers) && Box() == old(Box()).Wrote(ok)
    {
      WroteConserves(Box(), false, true);
      WroteConserves(Box(), false, false);
      ok := *;
      if ok {
        written := written + [writing.value];
      } else {
        lost := lost + [writing.value];
        writerExited := true;
      }
      writing := None;
    }

    method WriterPingFailed()
      requires Valid() && Box().CanPing()
      modifies this`writerExited
      ensures Valid() && offers == old(offers) && Box() == old(Box()).PingFailed()
    {
      writerExited := true;
    }

    /** At any moment the offered messages split into those written, at most one lost, the one being
        written, those queued, and those dropped; the written ones are in the offered order. */
    lemma Accounting()
      requires Valid()
      ensures Select(offers.messages, offers.kept, true) == written + lost + Box().Holding() + send
      ensures |offers.messages| == |written| + |lost| + |Box().Holding()| + |send|
                                   + |Select(offers.messages, offers.kept, false)|
      ensures |lost| <= 1 && |send| <= CAPACITY
      ensures Subsequence(written, offers.messages)
    {
      SelectCounts(offers.messages, offers.kept);
      PrefixOfSelection(offers.messages, offers.kept, |written|);
      assert Select(offers.messages, offers.kept, true)[..|written|] == written;
    }
  }

  lemma {:induction false} SelectCounts(messages: seq<Message>, marks: seq<bool>)
    requires |messages| == |marks|
    ensures |messages| == |Select(messages, marks, true)| + |Select(messages, marks, false)|
  {
    if messages == [] {
    } else {
      SelectCounts(messages[..|messages| - 1], marks[..|messages| - 1]);
    }
  }

  /** Every prefix of a selection is a selection too. */
  lemma {:induction false} PrefixOfSelection(messages: seq<Message>, marks: seq<bool>, n: nat)
    requires |messages| == |marks| && n <= |Select(messages, marks, true)|
    ensures Subsequence(Select(messages, marks, true)[..n], messages)
  {
    var all := Select(messages, marks, true);
    if n == |all| {
      assert all[..n] == all;
    } else {
      var k := |messages| - 1;
      var front := Select(messages[..k], marks[..k], true);
      PrefixOfSelection(messages[..k], marks[..k], n);
      assert all[..n] == front[..n];
      var marks' :| |marks'| == k && front[..n] == Select(messages[..k], marks', true);
      var extended := marks' + [false];
      assert extended[..k] == marks';
      assert Select(messages, extended, true) == front[..n];
    }
  }
}
