/** That the drive protocol gets on: when bytes of a response arrive, when a response is gone,
    and that every command is answered. */
module DriveProgress {
  import opened DriveSpec
  import opened DriveProof

  // ----- Responses by DMA -----

  function Left(d: Drive): int {
    d.rx.length - d.rx.offset
  }

  /** A response is on its way, with bytes left. */
  predicate Underway(d: Drive) {
    Wellformed(d) && 0 < d.rx.length && d.rx.offset < d.rx.length && 0 <= d.rx.end < 0x100
  }

  /** The last byte is out: the response is gone, and the guest may send again. */
  predicate Emptied(d: Drive, r: Drive)
    requires Underway(d)
  {
    && r.rx.length == 0 && !r.irq.received && r.irq.mayTransmit
    && r.past.delivered == d.past.delivered + d.rx.result[d.rx.offset..d.rx.length]
    && r.past.accepted == d.past.accepted
  }

  lemma {:induction false} TransferKeeps(d: Drive)
    requires Underway(d)
    ensures var r := Transfer(d);
      && r.irq.received == d.irq.received && r.irq.mayTransmit == d.irq.mayTransmit
      && r.rx.length == d.rx.length && r.past.accepted == d.past.accepted
      && r.tx == d.tx && r.busy == d.busy && r.ready == d.ready
      && r.rx.dma == d.rx.dma && r.rx.delay == d.rx.delay && r.rx.end == d.rx.end
    decreases d.rx.length - d.rx.offset
  {
    var e := PutByte(d);
    if e.rx.index != e.rx.end && e.rx.offset < e.rx.length {
      TransferKeeps(e);
    }
  }

  /** The DMA channel delivers exactly if DMA is on, the page has room, and the delay after
      its end was set is over: as many bytes as are left and fit. If that was all, the
      response is gone; else the end position is reached, and reported. */
  lemma ReturnDataDelivers(d: Drive)
    requires Underway(d)
    ensures
      var n, r := Fewer(Left(d), Room(d)), ReturnData(d);
      if d.rx.dma && d.rx.index != d.rx.end && d.rx.delay <= 0 then
        && 0 < n
        && (forall p :: 0 <= p < 0x100 ==> r.rx.page[p] == Placed(d, n, p))
        && r.irq.receiveDone == (d.irq.receiveDone || n == Room(d))
        && if n == Left(d) then Emptied(d, r)
           else Moved(d, r, n) && r.rx.length == d.rx.length && r.rx.index == d.rx.end
      else r == d
  {
    hide Transfer, Placed;
    if d.rx.dma && d.rx.index != d.rx.end && d.rx.delay <= 0 {
      TransferDelivers(d);
      TransferKeeps(d);
    }
  }

  // ----- Runs that empty a response -----

  /** All that had been accepted in d has reached the guest in r. */
  predicate AllArrived(d: Drive, r: Drive) {
    Joined(d.past.accepted) <= r.past.delivered
  }

  /** While bytes are left and the DMA channel stands still, the work after an access does
      nothing: no command is fetched. */
  lemma WorkWaits(d: Drive, w: World)
    requires Underway(d) && d.tx.active == 0
    requires !(d.rx.dma && d.rx.index != d.rx.end && d.rx.delay <= 0)
    ensures Work(d, w) == d
  {
    hide Transfer, AddByte;
  }

  lemma ExecuteKeepsDelivered(d: Drive, reply: Message, door: int)
    requires |d.rx.result| == BUFFER && d.tx.command != []
    ensures Execute(d, reply, door).past.delivered == d.past.delivered
  {
    hide Checksum;
  }

  lemma WorkKeepsDelivered(d: Drive, w: World)
    requires Wellformed(d) && Calm(d)
    ensures Work(d, w).past.delivered == ReturnData(d).past.delivered && |Work(d, w).rx.result| == BUFFER
  {
    hide ReturnData, Execute;
    ReturnDataCalm(d);
    AddByteActive(ReturnData(d).tx.(active := 0), w.fetched);
    FetchCalm(ReturnData(d), w.fetched);
    var e := FetchCommand(ReturnData(d), w.fetched);
    FetchNoNews(ReturnData(d), w.fetched);
    FetchKeepsDelivered(ReturnData(d), w.fetched);
    WorkKeepsBuffer(d, w);
    if e.tx.active > 0 {
      ExecuteKeepsDelivered(e.(tx := e.tx.(active := e.tx.active - 1)), w.reply, w.door);
    }
  }

  lemma FetchKeepsDelivered(d: Drive, b: int)
    ensures FetchCommand(d, b).past == d.past
  {
    hide AddByte;
  }

  lemma SpokenKeepsDelivered(d: Drive, a: Access)
    requires |d.rx.result| == BUFFER
    ensures Spoken(d, a).past.delivered == d.past.delivered
  {
    hide Checksum;
  }

  lemma EmptiedArrives(d: Drive, r: Drive)
    requires Underway(d) && Balanced(d) && Emptied(d, r)
    ensures Joined(d.past.accepted) == r.past.delivered
  {
    hide Joined, Sealed;
  }

  /** Whatever the access: if it leaves DMA on, no delay and room for all bytes left, they
      have arrived after it. */
  lemma NextAccessDelivers(d: Drive, a: Access, w: World)
    requires InOrder(d) && Balanced(d) && Underway(Accessed(d, a))
    requires var e := Accessed(d, a); e.rx.dma && e.rx.index != e.rx.end && e.rx.delay <= 0 && Left(e) <= Room(e)
    ensures AllArrived(d, Step(d, a, w))
  {
    hide Work, Spoken, Accessed, Balanced, Joined, Transfer, ReturnData, Placed, Moved, Emptied;
    AccessedBalanced(d, a);
    AccessedReceiving(d, a);
    AccessedNoNews(d, a);
    var e := Accessed(d, a);
    ReturnDataDelivers(e);
    EmptiedArrives(e, ReturnData(e));
    WorkKeepsDelivered(e, w);
    SpokenKeepsDelivered(Work(e, w), a);
  }

  /** An access while bytes are left and the channel stands still. */
  lemma StandsStill(d: Drive, a: Access, w: World)
    requires InOrder(d) && Underway(Accessed(d, a)) && Accessed(d, a).tx.active == 0
    requires var e := Accessed(d, a); !(e.rx.dma && e.rx.index != e.rx.end && e.rx.delay <= 0)
    ensures Step(d, a, w) == Accessed(d, a)
  {
    hide Accessed, Work;
    WorkWaits(Accessed(d, a), w);
  }

  /** With DMA on, room for the rest and three lines of the display are enough, whatever the
      drive and its commands do meanwhile. */
  lemma DmaEmpties(d: Drive, end: int, w: World, lines: seq<(Access, World)>)
    requires InOrder(d) && Balanced(d) && Underway(d) && d.rx.dma && Left(d) <= (end - d.rx.index) % 0x100
    requires |lines| == 3 && lines[0].0.Line? && lines[1].0.Line? && lines[2].0.Line?
    ensures AllArrived(d, Run(d, [(SetReceiveEnd(end), w)] + lines))
  {
    hide Step, Balanced, AllArrived;
    var a := SetReceiveEnd(end);
    EndIsSet(d, end);
    StandsStill(d, a, w);
    StepKeeps(d, a, w);
    var d1 := Step(d, a, w);
    StandsStill(d1, lines[0].0, lines[0].1);
    StepKeeps(d1, lines[0].0, lines[0].1);
    var d2 := Step(d1, lines[0].0, lines[0].1);
    StandsStill(d2, lines[1].0, lines[1].1);
    StepKeeps(d2, lines[1].0, lines[1].1);
    var d3 := Step(d2, lines[1].0, lines[1].1);
    NextAccessDelivers(d3, lines[2].0, lines[2].1);
    StepKeeps(d3, lines[2].0, lines[2].1);
    RunOneMore(d, (a, w), lines);
    assert lines == [lines[0]] + lines[1..] && lines[1..] == [lines[1]] + lines[2..] && lines[2..] == [lines[2]] + [];
    RunOneMore(d1, lines[0], lines[1..]);
    RunOneMore(d2, lines[1], lines[2..]);
    RunOneMore(d3, lines[2], []);
    ArrivedEarlier(d, d3, Step(d3, lines[2].0, lines[2].1));
  }

  /** Switching DMA on, with room and no delay, is enough; switching it off stops everything. */
  lemma SwitchDelivers(d: Drive, rxDma: bool, txDma: bool, sectorDma: bool, w: World)
    requires InOrder(d) && Balanced(d) && Underway(d) && d.rx.index != d.rx.end && d.rx.delay <= 0 && Left(d) <= Room(d)
    ensures var r := Step(d, SetFlags(rxDma, txDma, sectorDma), w);
      if rxDma then AllArrived(d, r)
      else r.rx == d.rx.(dma := false) && r.tx == d.tx.(dma := txDma) && r.busy == sectorDma && r.past == d.past
  {
    hide Step, Balanced, AllArrived;
    var a := SetFlags(rxDma, txDma, sectorDma);
    if rxDma {
      NextAccessDelivers(d, a, w);
    } else {
      StandsStill(d, a, w);
    }
  }

  lemma EndIsSet(d: Drive, end: int)
    requires InOrder(d) && Underway(d) && Left(d) <= (end - d.rx.index) % 0x100
    ensures var e := Accessed(d, SetReceiveEnd(end));
      Underway(e) && e.rx.index != e.rx.end && Left(e) <= Room(e) && e.rx.delay == 3 && e.rx.dma == d.rx.dma
  {
  }

  lemma ArrivedEarlier(d: Drive, e: Drive, r: Drive)
    requires AllArrived(e, r) && e.past.accepted == d.past.accepted
    ensures AllArrived(d, r)
  {
  }

  lemma RunOneMore(d: Drive, first: (Access, World), rest: seq<(Access, World)>)
    requires InOrder(d) && Balanced(d)
    requires InOrder(Step(d, first.0, first.1)) && Balanced(Step(d, first.0, first.1))
    ensures Run(d, [first] + rest) == Run(Step(d, first.0, first.1), rest)
  {
    hide Step, Balanced;
    assert ([first] + rest)[1..] == rest;
  }

  /** A read takes the next byte, exactly if DMA is off; with the last one the response is
      gone. */
  lemma ReadTakes(d: Drive)
    requires Underway(d)
    ensures var r := ReadData(d);
      if d.rx.dma then r == d.(irq := d.irq.(received := false))
      else if Left(d) == 1 then Emptied(d, r) && r.rx.last == d.rx.result[d.rx.offset]
      else r == d.(rx := d.rx.(offset := d.rx.offset + 1, last := d.rx.result[d.rx.offset]),
                   past := d.past.(delivered := d.past.delivered + [d.rx.result[d.rx.offset]]))
  {
  }

  /** With DMA off, as many reads of the register as there are bytes left are enough. */
  lemma {:induction false} ReadsEmpty(d: Drive, readings: seq<(Access, World)>)
    requires InOrder(d) && Balanced(d) && Underway(d) && !d.rx.dma
    requires |readings| == Left(d) && forall k :: 0 <= k < |readings| ==> readings[k].0 == ReadRegister
    ensures AllArrived(d, Run(d, readings))
    decreases |readings|
  {
    hide Step, Balanced, AllArrived, ReadData, Emptied;
    var a, w := readings[0].0, readings[0].1;
    StepKeeps(d, a, w);
    ReadTakes(d);
    if Left(d) == 1 {
      LastRead(d, w);
      assert readings[1..] == [];
    } else {
      StandsStill(d, a, w);
      ReadsEmpty(Step(d, a, w), readings[1..]);
      ArrivedEarlier(d, Step(d, a, w), Run(d, readings));
    }
  }

  lemma LastRead(d: Drive, w: World)
    requires InOrder(d) && Balanced(d) && Underway(d) && !d.rx.dma && Left(d) == 1
    ensures AllArrived(d, Step(d, ReadRegister, w))
  {
    hide Work, Spoken, ReadData, Emptied, Balanced, Joined;
    ReadTakes(d);
    var e := ReadData(d);
    EmptiedArrives(d, e);
    AccessedReceiving(d, ReadRegister);
    WorkKeepsDelivered(e, w);
    NothingReturned(d, e);
    SpokenKeepsDelivered(Work(e, w), ReadRegister);
  }

  lemma NothingReturned(d: Drive, e: Drive)
    requires Underway(d) && Emptied(d, e) && Wellformed(e)
    ensures ReturnData(e) == e
  {
  }

  // ----- Commands -----

  /** The source's table of command lengths. */
  lemma CommandLengths(command: int)
    ensures CommandLength(command) == [1, 2, 1, 1, 12, 2, 1, 1, 4, 1, 2, -1, -1, -1, -1, -1][command % 0x10]
  {
  }

  /** A byte is fetched exactly if transmit DMA is on, sector DMA is off, the end is not
      reached, the delay over, the drive ready, no command active and no response on its
      way; reaching the end is reported. */
  lemma FetchTakes(d: Drive, b: int)
    ensures var e := FetchCommand(d, b);
      if d.tx.dma && !d.busy && d.tx.index != d.tx.end && d.tx.delay <= 0
         && d.ready && d.tx.active == 0 && d.rx.length == 0 then
        && e.rx == d.rx && e.past == d.past && e.tx.command == d.tx.command + [b]
        && e.tx.index == (d.tx.index + 1) % 0x100
        && e.irq == d.irq.(transmitDone := d.irq.transmitDone || (d.tx.index + 1) % 0x100 == d.tx.end)
      else e == d
  {
    hide Sealed, CommandLength;
  }

  /** After the transmit end is set three lines go by before a byte is fetched. */
  lemma TransmitWaits(d: Drive, end: int, b: int)
    requires InOrder(d)
    ensures var e := Accessed(d, SetTransmitEnd(end));
      && e.tx.end == end % 0x100 && e.rx == d.rx && FetchCommand(e, b) == e
      && forall news, ready :: InOrder(e) ==>
           var f := Accessed(e, Line(news, ready));
           && f.tx.delay == 2 && FetchCommand(f, b) == f && InOrder(f)
           && var g := Accessed(f, Line(news, ready));
              && g.tx.delay == 1 && FetchCommand(g, b) == g && InOrder(g)
              && Accessed(g, Line(news, ready)).tx.delay == 0
  {
    hide AddByte;
  }

  /** The drive takes n more bytes, from memory if transmit DMA is on. */
  predicate Accepting(d: Drive, n: int) {
    && InOrder(d) && d.ready && d.rx.length == 0
    && (d.tx.dma ==> !d.busy && d.tx.delay <= 0 && 0 <= d.tx.index < 0x100 && 0 <= d.tx.end < 0x100
                     && n <= (d.tx.end - d.tx.index) % 0x100)
  }

  /** The access that offers a byte: any with DMA, a write to the register without. */
  function Offer(d: Drive, b: int): Access {
    if d.tx.dma then Other else WriteRegister(b)
  }

  /** The state in which byte b has been collected, before the command is carried out. */
  function Collecting(d: Drive, b: int): Drive
    requires InOrder(d)
  {
    FetchCommand(ReturnData(Accessed(d, Offer(d, b))), b)
  }

  lemma OfferCollects(d: Drive, b: int, n: int)
    requires Accepting(d, n) && 0 < n && 0 <= b < 0x100
    ensures var e, t := Collecting(d, b), AddByte(d.tx, b);
      && e.tx == t.(index := e.tx.index) && e.rx == d.rx && e.past == d.past && e.ready == d.ready && e.busy == d.busy
      && e.tx.dma == d.tx.dma && e.tx.delay == d.tx.delay && e.tx.end == d.tx.end
      && (d.tx.dma ==> 0 <= e.tx.index < 0x100 && n - 1 <= (e.tx.end - e.tx.index) % 0x100)
  {
    hide Sealed, CommandLength;
  }

  /** The answer to a command: the drive's own if it passes the test, else an error with the
      number of the command. */
  function AnswerOf(c: seq<int>, w: World): Message
    requires c != []
  {
    if Sealed(c) then w.reply else [c[0] / 0x10 * 0x10 + 5, 0x88 + w.door]
  }

  /** The answer, followed by its check byte, is the response now, or there is none. */
  predicate Replied(d: Drive, e: Drive, answer: Message) {
    if answer == [] then e.rx.length == 0 && e.irq.mayTransmit && e.past == d.past
    else
      && |e.rx.result| == BUFFER && e.rx.length == |answer| + 1 && e.rx.offset == 0 && e.irq.received
      && e.rx.result[..e.rx.length] == answer + [Checksum(answer)]
      && e.past == d.past.(accepted := d.past.accepted + [answer + [Checksum(answer)]])
  }

  lemma AnsweredReplies(d: Drive, answer: Message)
    requires answer != [] && d.rx.length == 0
    ensures Replied(d, Answered(d, answer), answer)
  {
    hide Checksum;
    var r := Written(Cleared(d), answer).rx.result;
    assert r[..|answer|] == answer;
    assert r[|answer| := Checksum(answer)][..|answer| + 1] == answer + [Checksum(answer)];
  }

  lemma ExecuteReplies(d: Drive, c: seq<int>, w: World)
    requires c != [] && d.tx.command == c && d.rx.length == 0 && !d.tx.unknown && d.tx.badSum == !Sealed(c)
    ensures Replied(d, Execute(d, w.reply, w.door), AnswerOf(c, w))
    ensures Execute(d, w.reply, w.door).tx == d.tx.(command := [], active := 0)
  {
    hide Answered, Sealed, Checksum;
    var e := d.(tx := d.tx.(command := [], active := 0));
    if AnswerOf(c, w) != [] {
      AnsweredReplies(e, AnswerOf(c, w));
    }
    AnsweredKeepsCommand(e, ErrorReply(d.tx, w.door));
    AnsweredKeepsCommand(e, w.reply);
  }

  lemma AnsweredKeepsCommand(d: Drive, answer: Message)
    ensures Answered(d, answer).tx == d.tx
  {
    hide Checksum;
  }

  /** A command of the drive's table with its check byte. */
  predicate Command(c: seq<int>) {
    && c != [] && CommandLength(c[0]) >= 0 && |c| == CommandLength(c[0]) + 1
    && forall k :: 0 <= k < |c| ==> 0 <= c[k] < 0x100
  }

  lemma OfferStep(d: Drive, c: seq<int>, k: nat, w: World)
    requires Command(c) && k < |c| && d.tx.command == c[..k] && Accepting(d, |c| - k) && w.fetched == c[k]
    ensures var r := Step(d, Offer(d, c[k]), w);
      if k + 1 < |c| then Accepting(r, |c| - k - 1) && r.tx.command == c[..k + 1] && r.past == d.past
      else Replied(d, r, AnswerOf(c, w)) && r.tx.command == [] && r.tx.active == 0
  {
    hide Sealed, CommandLength, Accessed, ReturnData, FetchCommand, Execute, AnswerOf, AddByte;
    OfferCollects(d, c[k], |c| - k);
    ByteCollected(d.tx, c, k);
    var e := Collecting(d, c[k]);
    if k + 1 == |c| {
      var f := e.(tx := e.tx.(active := 0));
      assert c[..k + 1] == c;
      ExecuteReplies(f, c, w);
    }
  }

  /** The bytes of a command offered one by one, with what the world supplies each time. */
  function Offered(d: Drive, c: seq<int>, ws: seq<World>): (r: Drive)
    requires InOrder(d) && Balanced(d) && |ws| == |c|
    ensures InOrder(r) && Balanced(r)
    decreases |c|
  {
    if c == [] then d
    else
      var w := ws[0].(fetched := c[0]);
      StepKeeps(d, Offer(d, c[0]), w);
      Offered(Step(d, Offer(d, c[0]), w), c[1..], ws[1..])
  }

  lemma {:induction false} AnsweredFrom(d: Drive, c: seq<int>, k: nat, ws: seq<World>)
    requires InOrder(d) && Balanced(d) && Command(c) && k < |c| && |ws| == |c| - k
    requires d.tx.command == c[..k] && Accepting(d, |c| - k)
    ensures Replied(d, Offered(d, c[k..], ws), AnswerOf(c, ws[|ws| - 1]))
    decreases |ws|
  {
    hide Step, Balanced, Command, Sealed, Offer, Accepting, CommandLength;
    var w := ws[0].(fetched := c[k]);
    OfferStep(d, c, k, w);
    StepKeeps(d, Offer(d, c[k]), w);
    var e := Step(d, Offer(d, c[k]), w);
    assert c[k..][1..] == c[k + 1..];
    if k + 1 < |c| {
      AnsweredFrom(e, c, k + 1, ws[1..]);
    } else {
      assert c[k + 1..] == [] && ws[1..] == [];
    }
  }

  /** Every command offered to a ready drive, by DMA or through the register, is answered: a
      good one as the drive pleases, a bad one by an error; and the answer is the response. */
  lemma CommandAnswered(d: Drive, c: seq<int>, ws: seq<World>)
    requires InOrder(d) && Balanced(d) && Command(c) && |ws| == |c|
    requires d.tx.command == [] && Accepting(d, |c|)
    ensures Replied(d, Offered(d, c, ws), AnswerOf(c, ws[|ws| - 1]))
  {
    hide Step, Balanced, Sealed, Accepting, CommandLength;
    assert c[..0] == [] && c[0..] == c;
    AnsweredFrom(d, c, 0, ws);
  }

  /** A byte that begins no command of the table is answered by an error at once. */
  lemma UnknownAnswered(d: Drive, b: int, w: World)
    requires Accepting(d, 1) && d.tx.command == [] && 0 <= b < 0x100 && CommandLength(b) < 0 && w.fetched == b
    ensures Replied(d, Step(d, Offer(d, b), w), [b / 0x10 * 0x10 + 5, 0x80 + w.door])
  {
    hide Answered, CommandLength, Sealed, Accessed, ReturnData, FetchCommand;
    OfferCollects(d, b, 1);
    var e := Collecting(d, b);
    var f := e.(tx := e.tx.(active := 0));
    AnsweredReplies(f.(tx := f.tx.(command := [], active := 0)), ErrorReply(f.tx, w.door));
  }
}
