/** The client's bounded output queue (TlsClientTransport in tls_client_transport.cpp): texts are
    queued and written in pieces; no call blocks.  What `SSL_write` answers is the sequence
    `answers`, of which nothing is known; once it is used up the socket stays full. */
module OutputQueue {
  import opened Text

  const MAX_QUEUED_BYTES: nat := 0x80_0000         // kMaxQueuedTextBytes, 8 MiB
  const FLUSH_BUDGET: nat := 0x4_0000              // kQueuedFlushBudgetBytes, 256 KiB

  datatype Answer = Accept(count: nat) | WantRead | WantWrite | Interrupted | Fail

  datatype Wait = NoWait | ForRead | ForWrite

  function Flat(items: seq<Bytes>): Bytes {
    if items == [] then [] else items[0] + Flat(items[1..])
  }

  lemma {:induction false} FlatPush(items: seq<Bytes>, item: Bytes)
    ensures Flat(items + [item]) == Flat(items) + item
  {
    if items == [] {
      assert Flat([item]) == item + Flat([]);
    } else {
      FlatPush(items[1..], item);
      assert (items + [item])[1..] == items[1..] + [item];
      assert items[0] + (Flat(items[1..]) + item) == items[0] + Flat(items[1..]) + item;
    }
  }

  /** Bytes still to be written: the items, without what is out of the first one. */
  function Unsent(queue: seq<Bytes>, offset: nat): Bytes {
    if offset <= |Flat(queue)| then Flat(queue)[offset..] else []
  }

  lemma UnsentPush(queue: seq<Bytes>, offset: nat, item: Bytes)
    requires offset <= |Flat(queue)|
    ensures Unsent(queue + [item], offset) == Unsent(queue, offset) + item
  {
    FlatPush(queue, item);
  }

  /** Writing `count` bytes of the first item takes them off the front of what is unsent. */
  lemma UnsentWrite(queue: seq<Bytes>, offset: nat, count: nat)
    requires queue != [] && offset + count <= |queue[0]|
    ensures Unsent(queue, offset) == queue[0][offset..offset + count] + Unsent(queue, offset + count)
    ensures offset + count == |queue[0]| ==> Unsent(queue, offset + count) == Unsent(queue[1..], 0)
    ensures offset <= |Flat(queue)|
  {
    var first, all := queue[0], Flat(queue);
    assert all == first + Flat(queue[1..]);
    assert all[offset..offset + count] == first[offset..offset + count];
    assert all[offset..] == all[offset..offset + count] + all[offset + count..];
    assert all[|first|..] == Flat(queue[1..]);
  }

  lemma Moved(written: Bytes, piece: Bytes, rest: Bytes)
    ensures written + (piece + rest) == written + piece + rest
    ensures written <= written + piece
  {
  }

  predicate NoneFails(answers: seq<Answer>) { forall i :: 0 <= i < |answers| ==> answers[i] != Fail }

  predicate AllAccept(answers: seq<Answer>) { forall i :: 0 <= i < |answers| ==> answers[i].Accept? }

  class TlsClientTransport {
    var connected: bool
    var outputQueue: seq<Bytes>
    var outputOffset: nat
    var queuedOutputBytes: nat
    var queuedWriteWait: Wait
    var answers: seq<Answer>
    ghost var accepted: Bytes              // everything queue_send took
    ghost var written: Bytes               // everything SSL_write took

    /** Accepted bytes are written or queued, in order; the counter is exact and bounded; the offset
        lies inside the first item. */
    ghost predicate Valid()
      reads this
    {
      && (forall i :: 0 <= i < |outputQueue| ==> outputQueue[i] != [])
      && (if outputQueue == [] then outputOffset == 0 else outputOffset < |outputQueue[0]|)
      && queuedOutputBytes == |Unsent(outputQueue, outputOffset)| <= MAX_QUEUED_BYTES
      && written + Unsent(outputQueue, outputOffset) == accepted
    }

    constructor (answers: seq<Answer>)
      ensures Valid() && connected && accepted == [] && this.answers == answers
    {
      connected, outputQueue, outputOffset, queuedOutputBytes, queuedWriteWait := true, [], 0, 0, NoWait;
      this.answers, accepted, written := answers, [], [];
    }

    /** `wants_write_event`: data is queued and the socket is not waiting for a read. */
    function WantsWriteEvent(): bool
      reads this
    {
      outputQueue != [] && queuedWriteWait != ForRead
    }

    /** `enqueue_output`: refused when closed, or when the queue would grow beyond its bound. */
    method EnqueueOutput(data: Bytes) returns (ok: bool)
      requires Valid()
      modifies this`outputQueue, this`queuedOutputBytes, this`accepted
      ensures Valid()
      ensures ok <==> connected && |old(Unsent(outputQueue, outputOffset))| + |data| <= MAX_QUEUED_BYTES
      ensures accepted == if ok then old(accepted) + data else old(accepted)
      ensures Unsent(outputQueue, outputOffset)
              == if ok then old(Unsent(outputQueue, outputOffset)) + data else old(Unsent(outputQueue, outputOffset))
    {
      if !connected {
        return false;
      }
      if data == [] {
        return true;
      }
      if queuedOutputBytes + |data| > MAX_QUEUED_BYTES {
        return false;
      }
      ghost var before := Unsent(outputQueue, outputOffset);
      if outputQueue != [] {
        UnsentWrite(outputQueue, outputOffset, 0);
      }
      UnsentPush(outputQueue, outputOffset, data);
      outputQueue := outputQueue + [data];
      queuedOutputBytes := queuedOutputBytes + |data|;
      accepted := accepted + data;
      assert written + (before + data) == written + before + data;
      return true;
    }

    lemma Emptied()
      requires Valid()
      ensures outputQueue == [] <==> written == accepted
    {
      if outputQueue != [] {
        UnsentWrite(outputQueue, outputOffset, |outputQueue[0]| - outputOffset);
      }
      assert written + Unsent(outputQueue, outputOffset) == accepted;
      assert outputQueue == [] ==> written + [] == written;
    }

    /** `flush_queued`: writes what the socket takes, up to the budget.  A successful flush that
        leaves data behind has set what to wait for. */
    method FlushQueued() returns (ok: bool)
      requires Valid()
      modifies this`connected, this`outputQueue, this`outputOffset, this`queuedOutputBytes, this`queuedWriteWait,
               this`answers, this`written
      ensures Valid() && ok == connected && old(written) <= written
      ensures ok && outputQueue != [] ==> queuedWriteWait != NoWait
      ensures ok ==> (outputQueue == [] <==> written == accepted)
      ensures ok ==> (WantsWriteEvent() <==> written != accepted && queuedWriteWait == ForWrite)
      ensures |written| <= |old(written)| + FLUSH_BUDGET
      ensures old(connected) && NoneFails(old(answers)) ==> ok && NoneFails(answers)
      ensures ok && AllAccept(old(answers)) ==>
                outputQueue == [] || answers == [] || |written| == |old(written)| + FLUSH_BUDGET
      ensures old(connected && outputQueue != [] && answers != []) ==>
                match old(answers)[0]
                case Accept(_) => old(written) < written
                case WantRead => ok && queuedWriteWait == ForRead && written == old(written)
                case WantWrite => ok && queuedWriteWait == ForWrite && written == old(written)
                case Interrupted => true
                case Fail => !ok && written == old(written)
    {
      hide Flat, Unsent;
      if !connected {
        return false;
      }
      var budget := FLUSH_BUDGET;
      while outputQueue != [] && budget > 0
        invariant Valid() && connected && old(written) <= written
        invariant |written| + budget == |old(written)| + FLUSH_BUDGET
        invariant NoneFails(old(answers)) ==> NoneFails(answers)
        invariant AllAccept(old(answers)) ==> AllAccept(answers)
        invariant || (answers == old(answers) && outputQueue == old(outputQueue) && written == old(written))
                  || (old(answers) != [] && old(outputQueue) != []
                      && (if old(answers)[0].Accept? then old(written) < written else old(answers)[0] == Interrupted))
        decreases |answers|
      {
        Emptied();
        if answers == [] {
          queuedWriteWait := ForWrite;
          return true;
        }
        var answer := answers[0];
        answers := answers[1..];
        match answer {
          case Accept(count) =>
            var sent := WriteFront(count, budget);
            budget := budget - sent;
          case WantWrite =>
            queuedWriteWait := ForWrite;
            return true;
          case WantRead =>
            queuedWriteWait := ForRead;
            return true;
          case Interrupted =>
          case Fail =>
            connected := false;
            return false;
        }
      }
      Emptied();
      if outputQueue == [] {
        outputOffset := 0;
        queuedWriteWait := NoWait;
      } else if queuedWriteWait == NoWait {
        queuedWriteWait := ForWrite;
      }
      return true;
    }

    /** One successful SSL_write of at most `budget` bytes of the first item. */
    method WriteFront(count: nat, budget: nat) returns (sent: nat)
      requires Valid() && outputQueue != [] && budget > 0
      modifies this`outputQueue, this`outputOffset, this`queuedOutputBytes, this`queuedWriteWait, this`written
      ensures Valid() && 0 < sent <= budget && |written| == |old(written)| + sent && old(written) <= written
    {
      hide Flat, Unsent;
      var front := outputQueue[0];
      var remaining := |front| - outputOffset;
      var request := if remaining < budget then remaining else budget;
      sent := if count == 0 then 1 else if count > request then request else count;
      UnsentWrite(outputQueue, outputOffset, sent);
      ghost var piece, rest := front[outputOffset..outputOffset + sent], Unsent(outputQueue, outputOffset + sent);
      Moved(written, piece, rest);
      written := written + piece;
      outputOffset := outputOffset + sent;
      queuedOutputBytes := queuedOutputBytes - sent;
      queuedWriteWait := NoWait;
      if outputOffset == |front| {
        outputQueue := outputQueue[1..];
        outputOffset := 0;
      }
      assert Unsent(outputQueue, outputOffset) == rest;
    }

    /** `queue_send` */
    method QueueSend(data: Bytes) returns (ok: bool)
      requires Valid()
      modifies this
      ensures Valid() && old(accepted) <= accepted && (ok ==> accepted == old(accepted) + data)
      ensures ok && outputQueue != [] ==> queuedWriteWait != NoWait
      ensures NoneFails(old(answers)) ==>
                (ok <==> old(connected) && |old(Unsent(outputQueue, outputOffset))| + |data| <= MAX_QUEUED_BYTES)
    {
      ok := EnqueueOutput(data);
      if !ok {
        return false;
      }
      ok := FlushQueued();
    }
  }
}
