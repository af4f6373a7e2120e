/** The control lines of a file delivery and the frames they announce
    (FileDeliveryPump in file_transfer_service.cpp). */
module Wire {
  import opened Text

  const PUMP_FRAME_BYTES: nat := 0x40_0000            // kBinaryFileFrameBytes, 4 MiB

  function ResumeStartText(transfer: nat, offset: nat): Bytes {
    "FILE_RESUME_START " + ToDecimal(transfer) + " " + ToDecimal(offset) + "\n"
  }

  function DataHeader(transfer: nat, offset: nat, count: nat): Bytes {
    "FILE_DATA " + ToDecimal(transfer) + " " + ToDecimal(offset) + " " + ToDecimal(count) + "\n"
  }

  function DoneText(transfer: nat): Bytes {
    "FILE_DONE " + ToDecimal(transfer) + "\n"
  }

  /** What a send completion does when the event loop runs it. */
  datatype Completion = Notify(message: nat)          // record that a chat message was delivered
                      | PumpNext(pump: nat)           // FILE_RESUME_START is out: send the first frame
                      | PumpDone(pump: nat)           // FILE_DONE is out: the delivery is over

  datatype Outgoing = Outgoing(text: Bytes, completion: Option<Completion>)

  /** What the stream consists of: whole texts, and frames of a header followed by its payload. */
  datatype Item = Message(m: Outgoing) | Frame(pump: nat, header: Bytes, payload: Bytes)

  function ItemBytes(item: Item): Bytes {
    match item
    case Message(m) => m.text
    case Frame(_, header, payload) => header + payload
  }

  function Flatten(log: seq<Item>): Bytes {
    if log == [] then [] else Flatten(log[..|log| - 1]) + ItemBytes(log[|log| - 1])
  }

  function CompletionOf(item: Item): seq<Completion> {
    if item.Message? && item.m.completion.Some? then [item.m.completion.value] else []
  }

  function CompletionsOf(log: seq<Item>): seq<Completion> {
    if log == [] then [] else CompletionsOf(log[..|log| - 1]) + CompletionOf(log[|log| - 1])
  }

  function TextsOf(log: seq<Item>): seq<Outgoing> {
    if log == [] then []
    else TextsOf(log[..|log| - 1]) + if log[|log| - 1].Message? then [log[|log| - 1].m] else []
  }

  lemma LogAppend(log: seq<Item>, item: Item)
    ensures Flatten(log + [item]) == Flatten(log) + ItemBytes(item)
    ensures CompletionsOf(log + [item]) == CompletionsOf(log) + CompletionOf(item)
    ensures TextsOf(log + [item]) == TextsOf(log) + if item.Message? then [item.m] else []
  {
    assert (log + [item])[..|log|] == log;
  }

  lemma {:induction false} FlattenMonotone(log: seq<Item>, n: nat)
    requires n <= |log|
    ensures Flatten(log[..n]) <= Flatten(log)
    decreases |log|
  {
    if n == |log| {
      assert log[..n] == log;
    } else {
      FlattenMonotone(log[..|log| - 1], n);
      assert log[..|log| - 1][..n] == log[..n];
    }
  }

  // ---- one pump's share of the stream -------------------------------------------------------

  /** How far one delivery has got, judged from the stream alone. */
  datatype Trace = Unstarted | At(offset: nat) | Complete | Broken

  /** A delivery of `content` as `transfer` from offset `start`. */
  datatype Delivery = Delivery(transfer: nat, start: nat, content: Bytes)

  predicate FrameFits(d: Delivery, offset: nat, header: Bytes, payload: Bytes) {
    && 0 < |payload| <= PUMP_FRAME_BYTES
    && offset + |payload| <= |d.content|
    && payload == d.content[offset..offset + |payload|]
    && header == DataHeader(d.transfer, offset, |payload|)
  }

  function TraceStep(t: Trace, item: Item, pump: nat, d: Delivery): Trace {
    match item
    case Message(m) =>
      if m.completion == Some(PumpNext(pump)) then
        if t == Unstarted && m.text == ResumeStartText(d.transfer, d.start) then At(d.start) else Broken
      else if m.completion == Some(PumpDone(pump)) then
        if t == At(|d.content|) && m.text == DoneText(d.transfer) then Complete else Broken
      else t
    case Frame(owner, header, payload) =>
      if owner != pump then t
      else if t.At? && FrameFits(d, t.offset, header, payload) then At(t.offset + |payload|)
      else Broken
  }

  /** Reads a stream as FILE_RESUME_START at `start`, frames that continue one another, and
      FILE_DONE at the end of the content; anything else is `Broken`. */
  function TraceOf(log: seq<Item>, pump: nat, d: Delivery): Trace {
    if log == [] then Unstarted
    else TraceStep(TraceOf(log[..|log| - 1], pump, d), log[|log| - 1], pump, d)
  }

  lemma TraceAppend(log: seq<Item>, item: Item, pump: nat, d: Delivery)
    ensures TraceOf(log + [item], pump, d) == TraceStep(TraceOf(log, pump, d), item, pump, d)
  {
    assert (log + [item])[..|log|] == log;
  }
}
