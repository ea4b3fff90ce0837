/** The write side of a session: frames pushed to the ring queue, and the slow-client
path in which an overflowing send disconnects the session, which itself sends. */
module SessionWrites {
  import opened Basics
  import opened RingQueue

  // The disconnect reasons the write path tells apart, and the texts of close frames.
  datatype Reason = SlowClient | ServerRestart | Remote | OtherReason(name: string)

  datatype CloseText = NoText | ServerRestarting | ClosedRemotely | CloseSent | WriteFailed | OtherText(text: string)

  datatype Message = DisconnectMessage(reason: Reason, reconnect: bool) | Other(body: string)

  datatype Frame = Data(payload: string) | CloseFrame(text: CloseText, code: int)

  const CLOSE_NORMAL := 1000
  const CLOSE_GOING_AWAY := 1001
  const CLOSE_ABNORMAL := 1006

  const SLOW_MESSAGE := DisconnectMessage(SlowClient, true)

  // None stands for an encoder that fails or has nothing to send for the message.
  type Encoder = Message -> Option<Frame>

  function FrameItem(f: Frame): Item<Frame> {
    Item(if f.Data? then |f.payload| else 0, f)
  }

  function CloseFor(code: Reason): Frame {
    match code
    case ServerRestart => CloseFrame(ServerRestarting, CLOSE_GOING_AWAY)
    case Remote => CloseFrame(ClosedRemotely, CLOSE_NORMAL)
    case _ => CloseFrame(NoText, CLOSE_NORMAL)
  }

  // `disconnects` counts executor.Disconnect calls, `slow` the slow-client detections; `wrote`
  // lists the frames handed to the connection, and `writing` says whether the writer still runs.
  datatype State = State(
    queue: Fifo<Frame>, maxPending: nat, connected: bool, closed: bool, disconnects: nat, slow: nat,
    wrote: seq<Frame>, writing: bool)

  // ---------- Specification ----------

  function Queued(f: Option<Frame>): seq<Item<Frame>> {
    if f.None? then [] else [FrameItem(f.value)]
  }

  function LeaveNode(s: State): State {
    s.(connected := false, disconnects := s.disconnects + if s.connected then 1 else 0)
  }

  // An overflow leaves exactly the disconnect message (when it encodes) and the close frame.
  function SendFrameSpec(enc: Encoder, s: State, f: Frame): State {
    var (q, r) := PushSpec(s.queue, FrameItem(f), s.maxPending);
    match r
    case PushClosed => s
    case PushOK => s.(queue := q)
    case PushOverflow =>
      LeaveNode(s.(queue := Fifo(Queued(enc(SLOW_MESSAGE)) + [FrameItem(CloseFor(SlowClient))], false),
                   maxPending := 0, closed := true, slow := s.slow + 1))
  }

  function SendSpec(enc: Encoder, s: State, m: Message): State {
    if enc(m).None? then s else SendFrameSpec(enc, s, enc(m).value)
  }

  function DisconnectSpec(enc: Encoder, s: State, close: Frame): State {
    LeaveNode(SendFrameSpec(enc, s, close).(closed := true))
  }

  // The close frame bypasses the queue.
  function DisconnectNowSpec(s: State, close: Frame): State {
    if !s.connected then s else
    LeaveNode(s).(queue := Fifo([], true), closed := true, wrote := s.wrote + [close])
  }

  // One turn of the writer loop: the head frame goes to the connection.
  function DeliverSpec(s: State, written: bool): State {
    if !s.writing || s.queue.items == [] then s else
    var f := s.queue.items[0].data;
    var s' := s.(queue := s.queue.(items := s.queue.items[1..]), wrote := s.wrote + [f]);
    if f.CloseFrame? then DisconnectNowSpec(s', CloseFrame(CloseSent, CLOSE_NORMAL)).(writing := false)
    else if !written then DisconnectNowSpec(s', CloseFrame(WriteFailed, CLOSE_ABNORMAL)).(writing := false)
    else s'
  }

  datatype Op =
    | Send(msg: Message)
    | DisconnectWith(msg: Message, code: Reason)
    | Disconnect(text: CloseText, closeCode: int)
    | DisconnectNow(text: CloseText, closeCode: int)
    | Deliver(written: bool)

  function Step(enc: Encoder, s: State, op: Op): State {
    match op
    case Send(m) => SendSpec(enc, s, m)
    case DisconnectWith(m, c) => DisconnectSpec(enc, SendSpec(enc, s, m), CloseFor(c))
    case Disconnect(r, c) => DisconnectSpec(enc, s, CloseFrame(r, c))
    case DisconnectNow(r, c) => DisconnectNowSpec(s, CloseFrame(r, c))
    case Deliver(w) => DeliverSpec(s, w)
  }

  function Run(enc: Encoder, s: State, ops: seq<Op>): State {
    if ops == [] then s else Step(enc, Run(enc, s, ops[..|ops| - 1]), ops[|ops| - 1])
  }

  // What the source computes step by step after an overflow: with the queue emptied and
  // the limit dropped, disconnecting with the slow-client message cannot overflow again.
  lemma OverflowUnfolds(enc: Encoder, s: State, f: Frame)
    requires PushSpec(s.queue, FrameItem(f), s.maxPending).1.PushOverflow?
    ensures Step(enc, s.(queue := Fifo([], false), maxPending := 0, slow := s.slow + 1),
                 DisconnectWith(SLOW_MESSAGE, SlowClient))
            == SendFrameSpec(enc, s, f)
  {
    var u := s.(queue := Fifo([], false), maxPending := 0, slow := s.slow + 1);
    assert SendSpec(enc, u, SLOW_MESSAGE) == u.(queue := Fifo(Queued(enc(SLOW_MESSAGE)), false));
  }

  // ---------- Properties of every run ----------

  ghost predicate Once(t: State, connected: bool, limit: nat) {
    && t.disconnects == (if connected && !t.connected then 1 else 0)
    && (t.connected ==> connected)
    && t.slow <= 1 && (t.slow == 1 ==> t.maxPending == 0 && !t.connected && t.closed)
    && (t.slow == 0 ==> t.maxPending == limit)
  }

  lemma SendFrameOnce(enc: Encoder, t: State, f: Frame, connected: bool, limit: nat)
    requires Once(t, connected, limit)
    ensures Once(SendFrameSpec(enc, t, f), connected, limit)
  {
  }

  // executor.Disconnect runs exactly when the session stops being connected, hence at most
  // once, and a session is declared slow at most once: its limit is then gone.
  lemma {:induction false} DisconnectOnce(enc: Encoder, s: State, ops: seq<Op>)
    requires s.disconnects == 0 && s.slow == 0
    ensures Once(Run(enc, s, ops), s.connected, s.maxPending)
  {
    hide SendFrameSpec;
    if ops != [] {
      DisconnectOnce(enc, s, ops[..|ops| - 1]);
      var t := Run(enc, s, ops[..|ops| - 1]);
      match ops[|ops| - 1] {
        case Send(m) =>
          if enc(m).Some? { SendFrameOnce(enc, t, enc(m).value, s.connected, s.maxPending); }
        case DisconnectWith(m, c) =>
          if enc(m).Some? { SendFrameOnce(enc, t, enc(m).value, s.connected, s.maxPending); }
          SendFrameOnce(enc, SendSpec(enc, t, m), CloseFor(c), s.connected, s.maxPending);
        case Disconnect(r, c) =>
          SendFrameOnce(enc, t, CloseFrame(r, c), s.connected, s.maxPending);
        case DisconnectNow(_, _) =>
        case Deliver(w) =>
      }
    }
  }

  ghost predicate Bounded(s: State, limit: nat, largest: nat) {
    s.slow == 0 ==> s.maxPending == limit && SizeSum(s.queue.items) < limit + largest
  }

  lemma SendFrameBounded(enc: Encoder, s: State, f: Frame, limit: nat, largest: nat)
    requires 0 < limit && limit + largest <= U64 && FrameItem(f).size <= largest
    requires Bounded(s, limit, largest)
    ensures Bounded(SendFrameSpec(enc, s, f), limit, largest)
  {
    hide PushSpec, SizeSum, FrameItem;
    if s.slow == 0 {
      PushBounded(s.queue, FrameItem(f), s.maxPending, limit, largest);
    }
  }

  lemma SendCases(enc: Encoder, s: State, f: Frame)
    ensures var (q, r) := PushSpec(s.queue, FrameItem(f), s.maxPending);
            && (r.PushOverflow? ==> q == Fifo([], false) && s.maxPending > 0)
            && (!r.PushOverflow? ==> SendFrameSpec(enc, s, f) == s.(queue := q))
  {
  }

  lemma PushBounded(q: Fifo<Frame>, i: Item<Frame>, maxSize: nat, limit: nat, largest: nat)
    requires 0 < limit && limit + largest <= U64 && i.size <= largest && SizeSum(q.items) < limit + largest
    ensures var (q', r) := PushSpec(q, i, maxSize);
            && (r.PushClosed? ==> q' == q)
            && (r.PushOK? && maxSize == limit ==> SizeSum(q'.items) < limit + largest)
  {
    hide SizeSum;
    SizeSumConcat(q.items, [i]);
    SizeSumOne(i);
    SmallCounter(q.items);
  }

  lemma SizeSumOne<T>(i: Item<T>)
    ensures SizeSum([i]) == i.size
  {
    assert [i][..0] == [];
  }

  // Below 2^64 the counter is the sum.
  lemma SmallCounter<T>(items: seq<Item<T>>)
    ensures SizeSum(items) < U64 ==> Counter(items) == SizeSum(items)
  {
  }

  lemma DeliverBounded(s: State, written: bool, limit: nat, largest: nat)
    requires 0 < limit && Bounded(s, limit, largest)
    ensures Bounded(DeliverSpec(s, written), limit, largest)
  {
    if s.queue.items != [] {
      var head, rest := [s.queue.items[0]], s.queue.items[1..];
      SizeSumConcat(head, rest);
      assert s.queue.items == head + rest;
    }
  }

  // Until an overflow is declared, a queue that starts empty never holds more than one
  // frame above the limit, whatever is sent and however slowly it drains.
  lemma {:induction false} PendingBounded(enc: Encoder, s: State, ops: seq<Op>, largest: nat)
    requires s.queue.items == [] && s.slow == 0
    requires 0 < s.maxPending && s.maxPending + largest <= U64
    requires forall m: Message :: enc(m).Some? ==> FrameItem(enc(m).value).size <= largest
    ensures Bounded(Run(enc, s, ops), s.maxPending, largest)
  {
    if ops != [] {
      PendingBounded(enc, s, ops[..|ops| - 1], largest);
      var t := Run(enc, s, ops[..|ops| - 1]);
      match ops[|ops| - 1] {
        case Send(m) =>
          if enc(m).Some? { SendFrameBounded(enc, t, enc(m).value, s.maxPending, largest); }
        case DisconnectWith(m, c) =>
          if enc(m).Some? { SendFrameBounded(enc, t, enc(m).value, s.maxPending, largest); }
          SendFrameBounded(enc, SendSpec(enc, t, m), CloseFor(c), s.maxPending, largest);
        case Disconnect(r, c) =>
          SendFrameBounded(enc, t, CloseFrame(r, c), s.maxPending, largest);
        case DisconnectNow(_, _) =>
        case Deliver(w) =>
          DeliverBounded(t, w, s.maxPending, largest);
      }
    }
  }

  // ---------- What is queued, frame by frame ----------

  // A client is declared slow exactly when a limit is set and the bytes pending on its open queue
  // have reached it, as the 64-bit counter has them.
  predicate Full(s: State) {
    !s.queue.closed && s.maxPending > 0 && SizeSum(s.queue.items) % U64 >= s.maxPending
  }

  // Data frames count with their length, close frames with nothing.
  lemma SentFrame(enc: Encoder, s: State, f: Frame)
    ensures s.queue.closed ==> SendFrameSpec(enc, s, f) == s
    ensures !s.queue.closed && !Full(s) ==>
              SendFrameSpec(enc, s, f) ==
              s.(queue := Fifo(s.queue.items + [Item(if f.Data? then |f.payload| else 0, f)], false))
    ensures Full(s) ==>
              SendFrameSpec(enc, s, f) ==
              State(Fifo((if enc(DisconnectMessage(SlowClient, true)).None? then []
                          else [FrameItem(enc(DisconnectMessage(SlowClient, true)).value)])
                         + [Item(0, CloseFrame(NoText, 1000))], false),
                    0, false, true, s.disconnects + (if s.connected then 1 else 0), s.slow + 1, s.wrote, s.writing)
  {
    hide SizeSum;
  }

  lemma SentMessage(enc: Encoder, s: State, m: Message)
    ensures enc(m).None? ==> Step(enc, s, Send(m)) == s
    ensures enc(m).Some? ==> Step(enc, s, Send(m)) == SendFrameSpec(enc, s, enc(m).value)
  {
  }

  // On an overflow nothing is queued but the disconnect message and the close frame.
  lemma OverflowQueues(enc: Encoder, s: State, m: Message)
    requires enc(m).Some? && Full(s)
    ensures Step(enc, s, Send(m)).queue.items ==
            Queued(enc(DisconnectMessage(SlowClient, true))) + [Item(0, CloseFrame(NoText, 1000))]
    ensures Step(enc, s, Send(m)).closed && !Step(enc, s, Send(m)).connected
  {
    hide SendFrameSpec, SizeSum;
    SentFrame(enc, s, enc(m).value);
  }

  // The close frame of a disconnect says why: going away for a restart, normal otherwise.
  predicate Closes(code: Reason, f: Frame) {
    f == match code
         case ServerRestart => CloseFrame(ServerRestarting, 1001)
         case Remote => CloseFrame(ClosedRemotely, 1000)
         case SlowClient => CloseFrame(NoText, 1000)
         case OtherReason(_) => CloseFrame(NoText, 1000)
  }

  // A disconnect that finds room queues its message, if it encodes, and then its close frame; the
  // session is closed and off the node at once.
  lemma DisconnectQueues(enc: Encoder, s: State, m: Message, code: Reason)
    requires !s.queue.closed && !Full(s) && !Full(Step(enc, s, Send(m)))
    ensures var t := Step(enc, s, DisconnectWith(m, code));
            && t.queue.items == s.queue.items + Queued(enc(m)) + [Item(0, CloseFor(code))]
            && Closes(code, CloseFor(code))
            && t.closed && !t.connected && !t.queue.closed
            && t.disconnects == s.disconnects + (if s.connected then 1 else 0)
            && t.wrote == s.wrote && t.slow == s.slow && t.maxPending == s.maxPending
  {
    hide SendFrameSpec, SizeSum;
    if enc(m).Some? {
      SentFrame(enc, s, enc(m).value);
    }
    SentFrame(enc, Step(enc, s, Send(m)), CloseFor(code));
  }

  lemma CloseQueues(enc: Encoder, s: State, text: CloseText, code: int)
    ensures var t := Step(enc, s, Disconnect(text, code));
            && t.closed && !t.connected
            && (!s.queue.closed && !Full(s) ==> t.queue.items == s.queue.items + [Item(0, CloseFrame(text, code))])
            && (s.queue.closed ==> t.queue == s.queue)
  {
    hide SendFrameSpec, SizeSum;
    SentFrame(enc, s, CloseFrame(text, code));
  }

  // An immediate disconnect throws away what is pending and writes its close frame itself, once.
  lemma DisconnectedNow(enc: Encoder, s: State, text: CloseText, code: int)
    ensures var t := Step(enc, s, DisconnectNow(text, code));
            if s.connected
            then t == State(Fifo([], true), s.maxPending, false, true, s.disconnects + 1, s.slow,
                            s.wrote + [CloseFrame(text, code)], s.writing)
            else t == s
  {
  }

  // The writer takes the first frame. A close frame ends it; so does a failed write, which also
  // disconnects a session that still is connected, with a close frame of its own.
  lemma WrittenNext(enc: Encoder, s: State, written: bool)
    requires s.writing && s.queue.items != []
    ensures var f, t := s.queue.items[0].data, Step(enc, s, Deliver(written));
            && (f.Data? && written ==> t == s.(queue := s.queue.(items := s.queue.items[1..]), wrote := s.wrote + [f]))
            && t.writing == (f.Data? && written)
            && (!t.writing && s.connected ==>
                  && t.queue == Fifo([], true) && t.closed && !t.connected && t.disconnects == s.disconnects + 1
                  && t.wrote == s.wrote + [f, if f.CloseFrame? then CloseFrame(CloseSent, 1000)
                                              else CloseFrame(WriteFailed, 1006)])
            && (!t.writing && !s.connected ==>
                  t == s.(queue := s.queue.(items := s.queue.items[1..]), wrote := s.wrote + [f], writing := false))
  {
  }

  // ---------- What is written ----------

  ghost predicate OnlyData(enc: Encoder) {
    forall m: Message :: enc(m).Some? ==> enc(m).value.Data?
  }

  ghost predicate NoClose(fs: seq<Frame>) {
    forall i :: 0 <= i < |fs| ==> fs[i].Data?
  }

  ghost predicate NoneQueued(items: seq<Item<Frame>>) {
    forall i :: 0 <= i < |items| ==> items[i].data.Data?
  }

  // A close frame is queued only once the session is off the node, and once one is written
  // nothing more can be.
  ghost predicate Orderly(s: State) {
    && (s.queue.closed ==> s.queue.items == [])
    && (s.connected ==> NoneQueued(s.queue.items) && NoClose(s.wrote))
    && (s.wrote != [] ==> NoClose(s.wrote[..|s.wrote| - 1]))
    && (!NoClose(s.wrote) ==> !s.writing || s.queue.closed)
  }

  lemma SendOrderly(enc: Encoder, s: State, f: Frame)
    requires Orderly(s) && OnlyData(enc) && (f.CloseFrame? ==> !s.connected)
    ensures Orderly(SendFrameSpec(enc, s, f))
    ensures !s.connected ==> !SendFrameSpec(enc, s, f).connected
  {
    hide SizeSum, SendFrameSpec, NoClose;
    SentFrame(enc, s, f);
  }

  lemma DisconnectOrderly(enc: Encoder, s: State, close: Frame)
    requires Orderly(s) && OnlyData(enc) && close.CloseFrame?
    ensures Orderly(DisconnectSpec(enc, s, close))
  {
    hide SizeSum, SendFrameSpec, NoClose;
    SentFrame(enc, s, close);
  }

  lemma WrittenOrderly(s: State, f: Frame)
    requires Orderly(s) && s.writing && s.queue.items != [] && f == s.queue.items[0].data
    ensures NoClose(s.wrote)
    ensures f.Data? ==> NoClose(s.wrote + [f])
    ensures (s.wrote + [f])[..|s.wrote|] == s.wrote
    ensures s.connected ==> f.Data?
  {
  }

  lemma DeliverOrderly(s: State, written: bool)
    requires Orderly(s)
    ensures Orderly(DeliverSpec(s, written))
  {
    if s.writing && s.queue.items != [] {
      var f := s.queue.items[0].data;
      WrittenOrderly(s, f);
      var two := s.wrote + [f] + [CloseFrame(WriteFailed, CLOSE_ABNORMAL)];
      assert two[..|two| - 1] == s.wrote + [f];
    }
  }

  lemma StepOrderly(enc: Encoder, s: State, op: Op)
    requires Orderly(s) && OnlyData(enc)
    ensures Orderly(Step(enc, s, op))
  {
    hide SendFrameSpec, SizeSum, Orderly, DeliverSpec, DisconnectSpec, DisconnectNowSpec;
    match op {
      case Send(m) =>
        if enc(m).Some? { SendOrderly(enc, s, enc(m).value); }
      case DisconnectWith(m, c) =>
        if enc(m).Some? { SendOrderly(enc, s, enc(m).value); }
        DisconnectOrderly(enc, SendSpec(enc, s, m), CloseFor(c));
      case Disconnect(r, c) =>
        DisconnectOrderly(enc, s, CloseFrame(r, c));
      case DisconnectNow(r, c) =>
        NowOrderly(s, CloseFrame(r, c));
      case Deliver(w) =>
        DeliverOrderly(s, w);
    }
  }

  lemma NowOrderly(s: State, close: Frame)
    requires Orderly(s)
    ensures Orderly(DisconnectNowSpec(s, close))
  {
    assert (s.wrote + [close])[..|s.wrote|] == s.wrote;
  }

  // Whatever is sent, however the session is disconnected and however writing goes, at most one
  // close frame reaches the connection, and it is the last frame.
  lemma {:induction false} OneCloseFrameLast(enc: Encoder, s: State, ops: seq<Op>)
    requires OnlyData(enc) && s.queue.items == [] && s.wrote == []
    ensures var t := Run(enc, s, ops);
            Orderly(t) && forall i :: 0 <= i < |t.wrote| && t.wrote[i].CloseFrame? ==> i == |t.wrote| - 1
  {
    if ops != [] {
      hide Step, Orderly;
      OneCloseFrameLast(enc, s, ops[..|ops| - 1]);
      StepOrderly(enc, Run(enc, s, ops[..|ops| - 1]), ops[|ops| - 1]);
    }
    CloseIsLast(Run(enc, s, ops));
  }

  lemma CloseIsLast(s: State)
    ensures Orderly(s) ==> forall i :: 0 <= i < |s.wrote| && s.wrote[i].CloseFrame? ==> i == |s.wrote| - 1
  {
    if Orderly(s) {
      forall i | 0 <= i < |s.wrote| - 1 ensures s.wrote[i].Data? {
        assert s.wrote[..|s.wrote| - 1][i] == s.wrote[i];
      }
    }
  }

  // ---------- A disconnected client gets what was pending, and then the close frame ----------

  function Turns(n: nat): seq<Op> {
    seq(n, i => Deliver(true))
  }

  lemma {:induction false} Drains(enc: Encoder, s: State, n: nat)
    requires s.writing && n < |s.queue.items| && NoneQueued(s.queue.items[..n])
    ensures var t := Run(enc, s, Turns(n));
            && t == s.(queue := s.queue.(items := s.queue.items[n..]), wrote := t.wrote)
            && |t.wrote| == |s.wrote| + n && t.wrote[..|s.wrote|] == s.wrote
            && forall i :: 0 <= i < n ==> t.wrote[|s.wrote| + i] == s.queue.items[i].data
  {
    if n > 0 {
      assert Turns(n)[..n - 1] == Turns(n - 1);
      Drains(enc, s, n - 1);
      assert s.queue.items[n - 1] == s.queue.items[..n][n - 1];
      var t := Run(enc, s, Turns(n - 1));
      assert t.queue.items[0] == s.queue.items[n - 1] && t.queue.items[1..] == s.queue.items[n..];
    }
  }

  // Once a disconnect is scheduled and every write succeeds, exactly the pending frames and the
  // close frame are written, in this order, and the writer ends.
  lemma DrainsThenCloses(enc: Encoder, s: State, frames: seq<Item<Frame>>, close: Frame)
    requires s.writing && !s.connected && close.CloseFrame? && NoneQueued(frames)
    requires s.queue.items == frames + [FrameItem(close)]
    ensures var t := Run(enc, s, Turns(|frames| + 1));
            && t.queue.items == [] && !t.writing && |t.wrote| == |s.wrote| + |frames| + 1
            && t.wrote[..|s.wrote|] == s.wrote && t.wrote[|t.wrote| - 1] == close
            && forall i :: 0 <= i < |frames| ==> t.wrote[|s.wrote| + i] == frames[i].data
  {
    var n := |frames|;
    assert s.queue.items[..n] == frames && s.queue.items[n..] == [FrameItem(close)];
    Drains(enc, s, n);
    assert Turns(n + 1)[..n] == Turns(n);
    var mid := Run(enc, s, Turns(n));
    assert Run(enc, s, Turns(n + 1)) == Step(enc, mid, Deliver(true));
  }

  // ---------- Implementation ----------

  class Session {
    const encode: Encoder
    const writeQueue: Queue<Frame>
    var maxPending: nat
    var connected: bool
    var closed: bool
    var disconnects: nat
    var slow: nat
    var wrote: seq<Frame>
    var writing: bool

    ghost predicate Valid()
      reads this, writeQueue, writeQueue.nodes
    {
      writeQueue.Valid()
    }

    ghost function View(): State
      reads this, writeQueue, writeQueue.nodes
      requires Valid()
    {
      State(writeQueue.View(), maxPending, connected, closed, disconnects, slow, wrote, writing)
    }

    constructor (enc: Encoder, limit: nat)
      ensures Valid() && fresh(writeQueue) && fresh(writeQueue.nodes)
      ensures encode == enc && View() == State(Fifo([], false), limit, false, false, 0, 0, [], true)
    {
      encode := enc;
      writeQueue := new Queue(16, Item(0, CloseFrame(NoText, 0)));
      maxPending, connected, closed, disconnects, slow := limit, false, false, 0, 0;
      wrote, writing := [], true;
    }

    // Sending may disconnect, which sends again: the limit is dropped to zero in between,
    // so the recursion ends.
    method SendFrame(f: Frame)
      requires Valid()
      modifies this, writeQueue, writeQueue.nodes
      ensures Valid() && (writeQueue.nodes == old(writeQueue.nodes) || fresh(writeQueue.nodes))
      ensures View() == SendFrameSpec(encode, old(View()), f)
      decreases maxPending, 1
    {
      hide Queue.Valid, Queue.View, PushSpec, FrameItem, Step;
      ghost var before := View();
      SendCases(encode, before, f);
      var r := writeQueue.Push(FrameItem(f), maxPending);
      if r.PushOverflow? {
        OverflowUnfolds(encode, before, f);
        DropSlowClient();
      }
    }

    method DropSlowClient()
      requires Valid() && writeQueue.View() == Fifo([], false) && maxPending > 0
      modifies this, writeQueue, writeQueue.nodes
      ensures Valid() && (writeQueue.nodes == old(writeQueue.nodes) || fresh(writeQueue.nodes))
      ensures View() == Step(encode, old(View()).(maxPending := 0, slow := old(slow) + 1),
                             DisconnectWith(SLOW_MESSAGE, SlowClient))
      decreases maxPending, 0
    {
      hide Queue.Valid, Queue.View, Step;
      maxPending := 0;
      slow := slow + 1;
      DisconnectWithMessage(SLOW_MESSAGE, SlowClient);
    }

    method SendMessage(m: Message)
      requires Valid()
      modifies this, writeQueue, writeQueue.nodes
      ensures Valid() && (writeQueue.nodes == old(writeQueue.nodes) || fresh(writeQueue.nodes))
      ensures View() == Step(encode, old(View()), Send(m))
      decreases maxPending, 2
    {
      var b := encode(m);
      if b.Some? {
        SendFrame(b.value);
      }
    }

    method DisconnectWithMessage(m: Message, code: Reason)
      requires Valid()
      modifies this, writeQueue, writeQueue.nodes
      ensures Valid() && (writeQueue.nodes == old(writeQueue.nodes) || fresh(writeQueue.nodes))
      ensures View() == Step(encode, old(View()), DisconnectWith(m, code))
      decreases maxPending, 3
    {
      hide Queue.Valid, Queue.View;
      SendMessage(m);
      var reason, wsCode := NoText, CLOSE_NORMAL;
      if code.ServerRestart? {
        reason, wsCode := ServerRestarting, CLOSE_GOING_AWAY;
      } else if code.Remote? {
        reason := ClosedRemotely;
      }
      ScheduleDisconnect(reason, wsCode);
    }

    method ScheduleDisconnect(reason: CloseText, code: int)
      requires Valid()
      modifies this, writeQueue, writeQueue.nodes
      ensures Valid() && (writeQueue.nodes == old(writeQueue.nodes) || fresh(writeQueue.nodes))
      ensures View() == Step(encode, old(View()), Disconnect(reason, code))
      decreases maxPending, 2
    {
      SendFrame(CloseFrame(reason, code));
      closed := true;
      DisconnectFromNode();
    }

    method DisconnectFromNode()
      modifies this`connected, this`disconnects
      ensures !connected && disconnects == old(disconnects) + if old(connected) then 1 else 0
    {
      if connected {
        disconnects := disconnects + 1;
      }
      connected := false;
    }

    method DisconnectImmediately(reason: CloseText, code: int)
      requires Valid()
      modifies this, writeQueue
      ensures Valid() && (writeQueue.nodes == old(writeQueue.nodes) || fresh(writeQueue.nodes))
      ensures View() == Step(encode, old(View()), DisconnectNow(reason, code))
    {
      hide Queue.Valid, Queue.View;
      if connected {
        DisconnectFromNode();
        wrote := wrote + [CloseFrame(reason, code)];
        writeQueue.Close();
        closed := true;
      }
    }

    // One turn of the writer loop; `written` is the outcome of the network write.
    method WriteNext(written: bool)
      requires Valid()
      modifies this, writeQueue, writeQueue.nodes
      ensures Valid() && (writeQueue.nodes == old(writeQueue.nodes) || fresh(writeQueue.nodes))
      ensures View() == Step(encode, old(View()), Deliver(written))
    {
      hide Queue.Valid, Queue.View;
      if !writing {
        return;
      }
      var item, ok := writeQueue.Remove();
      if !ok {
        return;
      }
      wrote := wrote + [item.data];
      if item.data.CloseFrame? {
        DisconnectImmediately(CloseSent, CLOSE_NORMAL);
        writing := false;
      } else if !written {
        DisconnectImmediately(WriteFailed, CLOSE_ABNORMAL);
        writing := false;
      }
    }
  }
}
