/** What one delivery puts on the wire (FileDeliveryPump): its payloads, laid end to end, are the
    content from the start offset on, framed by one FILE_RESUME_START and one FILE_DONE. */
module Partition {
  import opened Text
  import opened Wire
  import opened Deliveries
  import opened Stream

  function PayloadsOf(log: seq<Item>, p: nat): Bytes {
    if log == [] then []
    else PayloadsOf(log[..|log| - 1], p) + PayloadIn(log[|log| - 1], p)
  }

  function PayloadIn(item: Item, p: nat): Bytes { if item.Frame? && item.pump == p then item.payload else [] }

  /** How often completion `k` was handed over with a text. */
  function CountOf(log: seq<Item>, k: Completion): nat {
    if log == [] then 0
    else CountOf(log[..|log| - 1], k) + TextIn(log[|log| - 1], k)
  }

  function TextIn(item: Item, k: Completion): nat { if CompletionOf(item) == [k] then 1 else 0 }

  /** Payload bytes, FILE_RESUME_START and FILE_DONE texts sent when a delivery has got as far as `t`. */
  predicate Covers(payloads: Bytes, starts: nat, dones: nat, d: Delivery, t: Trace)
    requires d.start <= |d.content|
  {
    match t
    case Unstarted => payloads == [] && starts == 0 && dones == 0
    case At(offset) =>
      d.start <= offset <= |d.content| && payloads == d.content[d.start..offset] && starts == 1 && dones == 0
    case Complete => payloads == d.content[d.start..] && starts == 1 && dones == 1
    case Broken => true
  }

  predicate Covered(log: seq<Item>, p: nat, d: Delivery, t: Trace)
    requires d.start <= |d.content|
  {
    Covers(PayloadsOf(log, p), CountOf(log, PumpNext(p)), CountOf(log, PumpDone(p)), d, t)
  }

  lemma CoverStep(payloads: Bytes, starts: nat, dones: nat, item: Item, p: nat, d: Delivery, t: Trace)
    requires d.start <= |d.content| && Covers(payloads, starts, dones, d, t)
    ensures Covers(payloads + PayloadIn(item, p), starts + TextIn(item, PumpNext(p)), dones + TextIn(item, PumpDone(p)),
                   d, TraceStep(t, item, p, d))
  {
    hide DataHeader, ResumeStartText, DoneText;
    assert payloads + [] == payloads;
    if item.Frame? && item.pump == p && t.At? && FrameFits(d, t.offset, item.header, item.payload) {
      assert d.content[d.start..t.offset] + item.payload == d.content[d.start..t.offset + |item.payload|];
    }
    assert t == At(|d.content|) ==> d.content[d.start..|d.content|] == d.content[d.start..];
  }

  lemma {:induction false} TraceCovers(log: seq<Item>, p: nat, d: Delivery)
    requires d.start <= |d.content|
    ensures Covered(log, p, d, TraceOf(log, p, d))
  {
    hide TraceStep;
    if log == [] {
    } else {
      var rest, item := log[..|log| - 1], log[|log| - 1];
      TraceCovers(rest, p, d);
      CoverStep(PayloadsOf(rest, p), CountOf(rest, PumpNext(p)), CountOf(rest, PumpDone(p)), item, p, d,
                TraceOf(rest, p, d));
    }
  }

  /** In every reachable state the payloads a delivery has sent continue one another from its start
      offset; a delivery that finished well has sent everything, with one FILE_RESUME_START and one
      FILE_DONE; its callback was called once then, and not before. */
  lemma DeliveryCovers(c: Conn, files: Files, p: nat)
    requires Inv(c, files) && p in c.pumps && c.landed.None?
    ensures c.pumps[p].transfer in files
    ensures var u, content := c.pumps[p], files[c.pumps[p].transfer];
            && u.start <= u.offset <= |content|
            && (u.phase == Sending && (c.active.None? || c.active.value.pump != p)
                ==> PayloadsOf(c.log, p) == content[u.start..u.offset])
            && (u.phase == Finished(true) ==>
                  && PayloadsOf(c.log, p) == content[u.start..]
                  && CountOf(c.log, PumpNext(p)) == 1 && CountOf(c.log, PumpDone(p)) == 1)
            && u.calls == (if u.phase.Finished? then 1 else 0)
  {
    hide DataHeader, ResumeStartText, DoneText, TraceOf, PayloadsOf, CountOf, Framing, Honest, Ordered;
    var b := BoardOf(c);
    assert PumpOk(b, files, p);
    TraceCovers(c.log, p, DeliveryOf(c.pumps[p], files));
  }

  /** The next frame of a delivery shrinks what is left, fits the receiver's limit, and the 64-bit
      sum of its offset and size does not wrap. */
  lemma NextFrameFits(u: Pump, p: nat, total: nat)
    requires u.offset < total <= MAX_FILE_SIZE
    ensures var f := NextFrame(u, p, total);
            && 0 < f.size <= PUMP_FRAME_BYTES <= FILE_FRAME_BYTES
            && total - (f.offset + f.size) < total - u.offset
            && Sum64(f.offset, f.size) == f.offset + f.size <= total
            && (f.size < PUMP_FRAME_BYTES ==> f.offset + f.size == total)
  {
    hide DataHeader;
  }
}
