/** What every run of the drive protocol keeps: each response accepted from the drive
    reaches the guest once, whole and in order. */
module DriveProof {
  import opened DriveSpec

  function Joined(s: seq<seq<int>>): seq<int> {
    if s == [] then [] else Joined(s[..|s| - 1]) + s[|s| - 1]
  }

  /** The bytes accepted but not yet delivered. */
  function Outstanding(d: Drive): seq<int>
    requires Wellformed(d)
  {
    if d.rx.length > 0 then d.rx.result[d.rx.offset..d.rx.length] else []
  }

  /** Accepted is delivered plus outstanding, and every response is sealed. */
  predicate Balanced(d: Drive) {
    && Wellformed(d)
    && Joined(d.past.accepted) == d.past.delivered + Outstanding(d)
    && forall k :: 0 <= k < |d.past.accepted| ==> Sealed(d.past.accepted[k])
  }

  lemma RespondBalanced(d: Drive, len: int)
    requires Balanced(d) && d.rx.length == 0 && len < BUFFER
    ensures Balanced(Respond(d, len))
  {
    if len > 0 {
      var payload := d.rx.result[..len];
      var response := payload + [Checksum(payload)];
      ChecksumSeals(payload);
      hide Sealed, Checksum;
      assert d.rx.result[len := Checksum(payload)][..len + 1] == response;
      assert (d.past.accepted + [response])[..|d.past.accepted|] == d.past.accepted;
      assert Respond(d, len).rx.result[0..len + 1] == response;
    }
  }

  /** With nothing on its way the buffer may be overwritten. */
  lemma WriteBalanced(d: Drive, message: Message)
    requires Balanced(d) && d.rx.length == 0
    ensures Balanced(Written(d, message)) && Balanced(Cleared(d)) && Balanced(Written(Cleared(d), message))
  {
    hide Sealed, Joined;
  }

  lemma PutByteBalanced(d: Drive)
    requires Balanced(d) && 0 < d.rx.length && d.rx.offset < d.rx.length
    ensures Balanced(PutByte(d)) && Outstanding(PutByte(d)) == Outstanding(d)[1..]
  {
    hide Sealed;
    var e, b := PutByte(d), d.rx.result[d.rx.offset];
    assert Outstanding(d) == [b] + Outstanding(e);
    assert d.past.delivered + Outstanding(d) == (d.past.delivered + [b]) + Outstanding(e);
  }

  lemma {:induction false} TransferBalanced(d: Drive)
    requires Balanced(d) && d.rx.length > 0
    ensures Balanced(Transfer(d))
    decreases d.rx.length - d.rx.offset
  {
    hide Balanced, PutByte;
    if d.rx.offset < d.rx.length {
      PutByteBalanced(d);
      StillGoing(d);
      var e := PutByte(d);
      RequestsDoNotMatter(e, e.(irq := e.irq.(receiveDone := true)));
      if e.rx.index != e.rx.end {
        TransferBalanced(e);
      }
    }
  }

  lemma StillGoing(d: Drive)
    requires Balanced(d) && d.rx.length > 0 && d.rx.offset < d.rx.length
    ensures Wellformed(d) && PutByte(d).rx.length == d.rx.length && PutByte(d).rx.offset == d.rx.offset + 1
    ensures Wellformed(PutByte(d))
  {
  }

  /** Only the response, the page and the history matter. */
  lemma RequestsDoNotMatter(d: Drive, e: Drive)
    requires Balanced(d) && e.past == d.past && e.rx.page == d.rx.page && e.rx.index == d.rx.index
    requires e.rx.length == d.rx.length && e.rx.offset == d.rx.offset && e.rx.result == d.rx.result
    ensures Balanced(e) && Outstanding(e) == Outstanding(d)
  {
  }

  /** A response that is all gone may be cleared away. */
  lemma ResponseFinished(d: Drive, e: Drive)
    requires Balanced(d) && d.rx.offset >= d.rx.length && e.past == d.past && e.rx.page == d.rx.page
    requires e.rx.index == d.rx.index && e.rx.length == 0 && 0 <= e.rx.offset && |e.rx.result| == BUFFER
    ensures Balanced(e)
  {
  }

  lemma ReturnDataBalanced(d: Drive)
    requires Balanced(d)
    ensures Balanced(ReturnData(d))
  {
    assert Wellformed(d);
    hide Balanced, Transfer;
    if !(d.rx.length == 0 || !d.rx.dma || d.rx.index == d.rx.end || d.rx.delay > 0) {
      TransferBalanced(d);
      var e := Transfer(d);
      if e.rx.offset == e.rx.length {
        ResponseFinished(e, ReturnData(d));
      }
    }
  }

  lemma ReadDataBalanced(d: Drive)
    requires Balanced(d)
    ensures Balanced(ReadData(d))
  {
    if !d.rx.dma && d.rx.offset < d.rx.length {
      PutByteBalanced(d);
      var e := PutByte(d);
      var f := d.(rx := d.rx.(last := e.rx.last, offset := d.rx.offset + 1), past := e.past);
      assert Balanced(f);
      hide Balanced;
      if f.rx.offset == f.rx.length {
        ResponseFinished(f, ReadData(d));
      }
    } else {
      RequestsDoNotMatter(d, d.(irq := d.irq.(received := false)));
    }
  }

  lemma ExecuteBalanced(d: Drive, reply: Message, door: int)
    requires Balanced(d) && d.tx.command != [] && d.rx.length == 0
    ensures Balanced(Execute(d, reply, door))
  {
    hide Balanced, Respond;
    var e := d.(tx := d.tx.(command := [], active := 0));
    RequestsDoNotMatter(d, e);
    WriteBalanced(e, ErrorReply(d.tx, door));
    WriteBalanced(e, reply);
    RespondBalanced(Written(Cleared(e), ErrorReply(d.tx, door)), 2);
    RespondBalanced(Written(Cleared(e), reply), |reply|);
    RequestsDoNotMatter(Cleared(e), Cleared(e).(irq := e.irq.(mayTransmit := true)));
  }

  lemma FetchBalanced(d: Drive, b: int)
    requires Balanced(d)
    ensures Balanced(FetchCommand(d, b))
  {
    hide Balanced, AddByte;
    RequestsDoNotMatter(d, FetchCommand(d, b));
  }

  /** A command is complete only while nothing is on its way. */
  predicate Calm(d: Drive) {
    0 <= d.tx.active <= 1 && (d.tx.active > 0 ==> d.tx.command != [] && d.rx.length == 0)
  }

  lemma ReturnDataCalm(d: Drive)
    requires Wellformed(d) && Calm(d)
    ensures Calm(ReturnData(d))
  {
    hide Transfer;
    if d.rx.length > 0 {
      TransferKeepsCommand(d);
    }
  }

  lemma {:induction false} TransferKeepsCommand(d: Drive)
    requires Wellformed(d) && d.rx.length > 0
    ensures Transfer(d).tx == d.tx
    decreases d.rx.length - d.rx.offset
  {
    if d.rx.offset < d.rx.length {
      var e := PutByte(d);
      if e.rx.index != e.rx.end {
        TransferKeepsCommand(e);
      }
    }
  }

  lemma AddByteActive(t: Transmit, b: int)
    requires t.active == 0
    ensures AddByte(t, b).command != [] && 0 <= AddByte(t, b).active <= 1
  {
  }

  /** A byte of a command is taken only while nothing is on its way. */
  lemma FetchCalm(d: Drive, b: int)
    requires Calm(d)
    ensures Calm(FetchCommand(d, b)) && FetchCommand(d, b).rx == d.rx
  {
    hide AddByte;
    if d.tx.active == 0 {
      AddByteActive(d.tx, b);
    }
  }

  /** So a command is carried out, and the buffer cleared, only with nothing on its way. */
  lemma WorkCalm(d: Drive, w: World)
    requires Wellformed(d) && Calm(d)
    ensures var e := FetchCommand(ReturnData(d), w.fetched);
            Wellformed(e) && Calm(e) && (e.tx.active > 0 ==> e.tx.command != [] && e.rx.length == 0)
  {
    hide ReturnData, FetchCommand;
    ReturnDataCalm(d);
    FetchCalm(ReturnData(d), w.fetched);
  }

  lemma WorkBalanced(d: Drive, w: World)
    requires Wellformed(d) && Balanced(d) && Calm(d)
    ensures Balanced(Work(d, w))
  {
    hide Balanced, ReturnData, FetchCommand, Execute;
    ReturnDataBalanced(d);
    FetchBalanced(ReturnData(d), w.fetched);
    WorkCalm(d, w);
    var e := FetchCommand(ReturnData(d), w.fetched);
    var f := e.(tx := e.tx.(active := e.tx.active - 1));
    RequestsDoNotMatter(e, f);
    if e.tx.active > 0 {
      ExecuteBalanced(f, w.reply, w.door);
    }
  }

  lemma AccessedBalanced(d: Drive, a: Access)
    requires Balanced(d) && InOrder(d)
    ensures Balanced(Accessed(d, a))
  {
    hide Balanced, ReadData, AddByte;
    if a.ReadRegister? {
      ReadDataBalanced(d);
    } else {
      RequestsDoNotMatter(d, Accessed(d, a));
    }
  }

  // ----- Between accesses no command is pending -----

  /** The part of InOrder that concerns the response. */
  predicate Receiving(d: Drive) {
    Wellformed(d) && (d.rx.length > 0 ==> d.rx.offset < d.rx.length)
  }

  lemma {:induction false} TransferGoesOn(d: Drive)
    requires Wellformed(d) && d.rx.length > 0
    ensures d.rx.offset <= Transfer(d).rx.offset <= Transfer(d).rx.length
    decreases d.rx.length - d.rx.offset
  {
    if d.rx.offset < d.rx.length {
      var e := PutByte(d);
      if e.rx.index != e.rx.end {
        TransferGoesOn(e);
      }
    }
  }

  lemma ReturnDataReceiving(d: Drive)
    requires Receiving(d)
    ensures Receiving(ReturnData(d))
  {
    hide Transfer;
    if d.rx.length > 0 {
      TransferGoesOn(d);
    }
  }

  lemma RespondReceiving(d: Drive, len: int)
    requires Receiving(d) && len < BUFFER
    ensures Receiving(Respond(d, len)) && Respond(d, len).tx == d.tx
  {
    hide Checksum;
  }

  lemma ExecuteInOrder(d: Drive, reply: Message, door: int)
    requires Receiving(d) && d.tx.command != [] && d.rx.length == 0
    ensures InOrder(Execute(d, reply, door))
  {
    hide Respond;
    var e := d.(tx := d.tx.(command := [], active := 0));
    RespondReceiving(Written(Cleared(e), ErrorReply(d.tx, door)), 2);
    RespondReceiving(Written(Cleared(e), reply), |reply|);
  }

  lemma WorkInOrder(d: Drive, w: World)
    requires Receiving(d) && Calm(d)
    ensures InOrder(Work(d, w))
  {
    hide ReturnData, FetchCommand, Execute;
    ReturnDataReceiving(d);
    ReturnDataCalm(d);
    FetchCalm(ReturnData(d), w.fetched);
    var e := FetchCommand(ReturnData(d), w.fetched);
    if e.tx.active > 0 {
      ExecuteInOrder(e.(tx := e.tx.(active := 0)), w.reply, w.door);
    }
  }

  lemma AccessedReceiving(d: Drive, a: Access)
    requires InOrder(d)
    ensures Receiving(Accessed(d, a)) && Calm(Accessed(d, a))
  {
    hide AddByte;
    if a.WriteRegister? {
      AddByteActive(d.tx, a.b % 0x100);
    }
  }

  /** One access, with the work after it, keeps the protocol in order and balanced. */
  lemma StepKeeps(d: Drive, a: Access, w: World)
    requires InOrder(d) && Balanced(d)
    ensures InOrder(Step(d, a, w)) && Balanced(Step(d, a, w))
  {
    hide Balanced, Accessed, Work, Respond;
    AccessedBalanced(d, a);
    AccessedReceiving(d, a);
    var e := Accessed(d, a);
    WorkBalanced(e, w);
    WorkInOrder(e, w);
    var f := Work(e, w);
    if a.Line? && f.rx.length == 0 {
      WriteBalanced(f, a.news);
      RespondBalanced(Written(f, a.news), |a.news|);
      RespondReceiving(Written(f, a.news), |a.news|);
      var g := Respond(Written(f, a.news), |a.news|);
      RequestsDoNotMatter(g, g.(ready := f.ready || a.nowReady));
    }
  }

  // ----- Runs -----

  function Run(d: Drive, accesses: seq<(Access, World)>): (r: Drive)
    requires InOrder(d) && Balanced(d)
    ensures InOrder(r) && Balanced(r)
    decreases |accesses|
  {
    if accesses == [] then d
    else
      StepKeeps(d, accesses[0].0, accesses[0].1);
      Run(Step(d, accesses[0].0, accesses[0].1), accesses[1..])
  }

  /** Nothing accepted, nothing on its way. */
  predicate Fresh(d: Drive) {
    InOrder(d) && d.rx.length == 0 && d.past == History([], [])
  }

  /** After any run, what has been delivered is the front of all responses in the order
      they were accepted, each whole and sealed; once nothing is outstanding it is all. */
  lemma RunDelivers(d: Drive, accesses: seq<(Access, World)>)
    requires Fresh(d)
    ensures Balanced(d)
    ensures var r := Run(d, accesses);
      && Joined(r.past.accepted) == r.past.delivered + Outstanding(r)
      && (forall k :: 0 <= k < |r.past.accepted| ==> Sealed(r.past.accepted[k]))
      && (r.rx.length == 0 ==> r.past.delivered == Joined(r.past.accepted))
  {
    hide Sealed, Step;
    assert Balanced(d);
    var r := Run(d, accesses);
    assert Balanced(r);
    if r.rx.length == 0 {
      assert r.past.delivered + [] == r.past.delivered;
    }
  }

  // ----- A response is not touched while it is on its way -----

  /** From d to e nothing was accepted and the buffer did not change; bytes may have been
      delivered. */
  predicate NoNews(d: Drive, e: Drive) {
    && e.past.accepted == d.past.accepted && e.rx.result == d.rx.result
    && d.past.delivered <= e.past.delivered
  }

  /** From d to e, anything new was accepted, and the buffer was touched, only after all
      earlier bytes had been delivered. */
  predicate Orderly(d: Drive, e: Drive) {
    && d.past.accepted <= e.past.accepted && d.past.delivered <= e.past.delivered
    && (NoNews(d, e) || Joined(d.past.accepted) <= e.past.delivered)
  }

  lemma {:induction false} TransferNoNews(d: Drive)
    requires Wellformed(d) && d.rx.length > 0
    ensures NoNews(d, Transfer(d))
    decreases d.rx.length - d.rx.offset
  {
    if d.rx.offset < d.rx.length {
      var e := PutByte(d);
      if e.rx.index != e.rx.end {
        TransferNoNews(e);
      }
    }
  }

  lemma ReturnDataNoNews(d: Drive)
    requires Wellformed(d)
    ensures NoNews(d, ReturnData(d))
  {
    hide Transfer;
    if d.rx.length > 0 {
      TransferNoNews(d);
    }
  }

  lemma AccessedNoNews(d: Drive, a: Access)
    requires InOrder(d)
    ensures NoNews(d, Accessed(d, a))
  {
    hide AddByte;
  }

  lemma FetchNoNews(d: Drive, b: int)
    ensures NoNews(d, FetchCommand(d, b))
  {
    hide AddByte;
  }

  /** With nothing on its way everything accepted has been delivered. */
  lemma NothingOutstanding(o: Drive, d: Drive, e: Drive)
    requires Balanced(d) && d.rx.length == 0 && Orderly(o, d)
    requires d.past.accepted <= e.past.accepted && e.past.delivered == d.past.delivered
    ensures Orderly(o, e)
  {
    hide Joined, Sealed;
    assert d.past.delivered + Outstanding(d) == d.past.delivered;
  }

  lemma RespondAccepts(d: Drive, message: Message)
    requires Wellformed(d)
    ensures var e := Respond(Written(d, message), |message|);
            d.past.accepted <= e.past.accepted && e.past.delivered == d.past.delivered
  {
    hide Checksum;
  }

  lemma ExecuteOrderly(o: Drive, d: Drive, reply: Message, door: int)
    requires Balanced(d) && Orderly(o, d) && d.tx.command != [] && d.rx.length == 0
    ensures Orderly(o, Execute(d, reply, door))
  {
    assert Wellformed(d);
    hide Balanced, Orderly, Respond;
    var e := d.(tx := d.tx.(command := [], active := 0));
    RespondAccepts(Cleared(e), ErrorReply(d.tx, door));
    RespondAccepts(Cleared(e), reply);
    NothingOutstanding(o, d, Execute(d, reply, door));
  }

  lemma NoNewsTwice(o: Drive, d: Drive, e: Drive)
    requires NoNews(o, d) && NoNews(d, e)
    ensures NoNews(o, e) && Orderly(o, e)
  {
    hide Joined;
  }

  lemma WorkOrderly(o: Drive, d: Drive, w: World)
    requires Wellformed(d) && Balanced(d) && NoNews(o, d) && Calm(d)
    ensures Orderly(o, Work(d, w))
  {
    hide Balanced, ReturnData, FetchCommand, Execute, Orderly, NoNews;
    var e := FetchCommand(ReturnData(d), w.fetched);
    ReturnDataNoNews(d);
    NoNewsTwice(o, d, ReturnData(d));
    FetchNoNews(ReturnData(d), w.fetched);
    NoNewsTwice(o, ReturnData(d), e);
    ReturnDataBalanced(d);
    FetchBalanced(ReturnData(d), w.fetched);
    WorkCalm(d, w);
    if e.tx.active > 0 {
      var f := e.(tx := e.tx.(active := 0));
      CommandDoesNotMatter(o, e, f);
      RequestsDoNotMatter(e, f);
      ExecuteOrderly(o, f, w.reply, w.door);
    }
  }

  lemma CommandDoesNotMatter(o: Drive, d: Drive, e: Drive)
    requires NoNews(o, d) && e == d.(tx := e.tx)
    ensures NoNews(o, e) && Orderly(o, e)
  {
    hide Joined;
  }

  /** No access touches the buffer of a response that is on its way: the buffer changes, and
      a new response is accepted, only when every byte of those before has been delivered. */
  lemma StepOrderly(d: Drive, a: Access, w: World)
    requires InOrder(d) && Balanced(d)
    ensures Orderly(d, Step(d, a, w))
  {
    hide Balanced, Accessed, Work, Respond, Orderly, NoNews;
    AccessedNoNews(d, a);
    AccessedBalanced(d, a);
    AccessedReceiving(d, a);
    var e := Accessed(d, a);
    WorkOrderly(d, e, w);
    WorkBalanced(e, w);
    WorkInOrder(e, w);
    var f := Work(e, w);
    if a.Line? && f.rx.length == 0 {
      RespondAccepts(f, a.news);
      NothingOutstanding(d, f, Respond(Written(f, a.news), |a.news|));
      ReadyDoesNotMatter(d, Respond(Written(f, a.news), |a.news|), f.ready || a.nowReady);
    }
  }

  lemma ReadyDoesNotMatter(o: Drive, d: Drive, ready: bool)
    requires Orderly(o, d)
    ensures Orderly(o, d.(ready := ready))
  {
    hide Joined;
  }

  // ----- What one DMA transfer delivers -----

  /** The room in the receive page up to the end position. */
  function Room(d: Drive): int {
    (d.rx.end - d.rx.index) % 0x100
  }

  function Fewer(a: int, b: int): int {
    if a < b then a else b
  }

  /** From d to r, n bytes of the response went to consecutive places of the page. */
  predicate Moved(d: Drive, r: Drive, n: int)
    requires Wellformed(d) && Wellformed(r)
  {
    && 0 <= n <= 0x100 && d.rx.offset + n <= |d.rx.result|
    && r.rx.result == d.rx.result && r.rx.end == d.rx.end
    && r.rx.offset == d.rx.offset + n && r.rx.index == (d.rx.index + n) % 0x100
    && r.past.delivered == d.past.delivered + d.rx.result[d.rx.offset..d.rx.offset + n]
    && forall p :: 0 <= p < 0x100 ==> r.rx.page[p] == Placed(d, n, p)
  }

  /** What place p of the page holds after n bytes. */
  function Placed(d: Drive, n: int, p: int): int
    requires Wellformed(d) && 0 <= n && d.rx.offset + n <= |d.rx.result| && 0 <= p < 0x100
  {
    var k := (p - d.rx.index) % 0x100;
    if k < n then d.rx.result[d.rx.offset + k] else d.rx.page[p]
  }

  lemma OneMoved(d: Drive)
    requires Wellformed(d) && 0 < d.rx.length && d.rx.offset < d.rx.length
    ensures Wellformed(PutByte(d)) && Moved(d, PutByte(d), 1)
  {
  }

  lemma PlacedNext(d: Drive, n: int, p: int)
    requires Wellformed(d) && 0 < d.rx.length && d.rx.offset < d.rx.length && 0 <= p < 0x100
    requires 0 <= n < 0x100 && d.rx.offset + 1 + n <= |d.rx.result|
    ensures Placed(PutByte(d), n, p) == Placed(d, n + 1, p)
  {
    var e := PutByte(d);
    var k := (p - d.rx.index) % 0x100;
    assert (p - e.rx.index) % 0x100 == if k == 0 then 0xFF else k - 1;
  }

  lemma MoreMoved(d: Drive, r: Drive, n: int)
    requires Wellformed(d) && 0 < d.rx.length && d.rx.offset < d.rx.length && Wellformed(r) && 0 <= n < 0x100
    requires Moved(PutByte(d), r, n)
    ensures Moved(d, r, n + 1)
  {
    hide Placed, PutByte;
    PutByteMoves(d);
    PageMoved(d, r, n);
    OneAndRest(d.past.delivered, d.rx.result, d.rx.offset, n);
  }

  lemma PutByteMoves(d: Drive)
    requires Wellformed(d) && 0 < d.rx.length && d.rx.offset < d.rx.length
    ensures var e := PutByte(d);
      && e.rx.result == d.rx.result && e.rx.end == d.rx.end && e.rx.offset == d.rx.offset + 1
      && e.rx.index == (d.rx.index + 1) % 0x100 && e.rx.length == d.rx.length && e.irq == d.irq
      && e.past.delivered == d.past.delivered + [d.rx.result[d.rx.offset]]
  {
  }

  lemma PageMoved(d: Drive, r: Drive, n: int)
    requires Wellformed(d) && 0 < d.rx.length && d.rx.offset < d.rx.length && Wellformed(r) && 0 <= n < 0x100
    requires Moved(PutByte(d), r, n) && d.rx.offset + 1 + n <= |d.rx.result|
    ensures forall p :: 0 <= p < 0x100 ==> r.rx.page[p] == Placed(d, n + 1, p)
  {
    forall p | 0 <= p < 0x100 ensures r.rx.page[p] == Placed(d, n + 1, p) {
      PlacedNext(d, n, p);
    }
  }

  lemma OneAndRest(before: seq<int>, s: seq<int>, k: nat, n: nat)
    requires k + n < |s|
    ensures before + [s[k]] + s[k + 1..k + 1 + n] == before + s[k..k + (n + 1)]
  {
    assert s[k..k + (n + 1)] == [s[k]] + s[k + 1..k + 1 + n];
  }

  lemma MovedAnyhow(d: Drive, r: Drive, n: int)
    requires Wellformed(d) && Wellformed(r) && Moved(d, r, n)
    ensures Moved(d, r.(irq := r.irq.(receiveDone := true)), n)
  {
    hide Placed;
  }

  lemma RoomShrinks(d: Drive)
    requires Wellformed(d) && 0 < d.rx.length && d.rx.offset < d.rx.length
    requires 0 <= d.rx.end < 0x100 && d.rx.index != d.rx.end
    ensures Room(PutByte(d)) == Room(d) - 1 && 0 < Room(d) < 0x100
    ensures Room(PutByte(d)) == 0 <==> PutByte(d).rx.index == PutByte(d).rx.end
  {
  }

  /** A transfer delivers as many bytes as are left and fit, to consecutive places of the
      page, and reports the end position exactly when it is reached. */
  lemma {:induction false} TransferDelivers(d: Drive)
    requires Wellformed(d) && 0 < d.rx.length && d.rx.offset < d.rx.length
    requires 0 <= d.rx.end < 0x100 && d.rx.index != d.rx.end
    ensures var n, r := Fewer(d.rx.length - d.rx.offset, Room(d)), Transfer(d);
            0 < n && Moved(d, r, n) && r.irq.receiveDone == (d.irq.receiveDone || n == Room(d))
    decreases d.rx.length - d.rx.offset
  {
    hide Moved, Room, PutByte;
    var e := PutByte(d);
    PutByteMoves(d);
    RoomShrinks(d);
    OneMoved(d);
    if e.rx.index != e.rx.end && e.rx.offset < e.rx.length {
      TransferDelivers(e);
      MoreMoved(d, Transfer(d), Fewer(e.rx.length - e.rx.offset, Room(e)));
    } else {
      MovedAnyhow(d, e, 1);
    }
  }

  // ----- Commands byte by byte -----

  function Collected(t: Transmit, bytes: seq<int>): Transmit {
    if bytes == [] then t else AddByte(Collected(t, bytes[..|bytes| - 1]), bytes[|bytes| - 1])
  }

  /** A command of the right length becomes active with its last byte, not before, and is
      found bad exactly when its bytes do not pass the test the responses pass. */
  lemma {:induction false} CommandCollected(t: Transmit, c: seq<int>, k: nat)
    requires t.command == [] && t.active == 0 && c != [] && CommandLength(c[0]) >= 0
    requires |c| == CommandLength(c[0]) + 1 && k <= |c|
    ensures var u := Collected(t, c[..k]);
      && u.command == c[..k] && u.active == (if k == |c| then 1 else 0)
      && (0 < k ==> !u.unknown && u.badSum == (k == |c| && !Sealed(c)))
  {
    hide Sealed, CommandLength, AddByte;
    if k > 0 {
      CommandCollected(t, c, k - 1);
      assert c[..k][..k - 1] == c[..k - 1];
      ByteCollected(Collected(t, c[..k - 1]), c, k - 1);
    }
  }

  lemma ByteCollected(t: Transmit, c: seq<int>, k: nat)
    requires k < |c| && t.command == c[..k] && t.active == 0
    requires CommandLength(c[0]) >= 0 && |c| == CommandLength(c[0]) + 1
    ensures var u := AddByte(t, c[k]);
      && u.command == c[..k + 1] && u.active == (if k + 1 == |c| then 1 else 0)
      && !u.unknown && u.badSum == (k + 1 == |c| && !Sealed(c))
  {
    hide Sealed, CommandLength;
    assert c[..k] + [c[k]] == c[..k + 1];
    if k + 1 == |c| {
      assert c[..k + 1][..k + 1] == c;
    }
  }
}
