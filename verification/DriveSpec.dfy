/** The protocol between the CD drive and its controller: responses out by DMA or through
    a register, commands in, and what every run of accesses keeps. */
module DriveSpec {
  // Bytes are numbers from 0 to 255.

  const BUFFER := 32

  /** What fits into the result buffer with a byte to spare for the checksum. */
  type Message = s: seq<int> | |s| < BUFFER witness []

  /** The result buffer, how much of it is the response on its way and how much of that is
      gone, and the receive channel. */
  datatype Receive = Receive(result: seq<int>, length: int, offset: int, index: int, end: int, dma: bool, delay: int,
                             last: int, page: seq<int>)

  /** The command being collected, and the transmit channel. */
  datatype Transmit = Transmit(command: seq<int>, active: int, badSum: bool, unknown: bool, index: int, end: int,
                               dma: bool, delay: int)

  /** The interrupt requests of both channels. */
  datatype Requests = Requests(received: bool, mayTransmit: bool, receiveDone: bool, transmitDone: bool)

  /** Everything accepted from the drive, response by response, and every byte that has
      reached the guest. */
  datatype History = History(accepted: seq<seq<int>>, delivered: seq<int>)

  /** busy: sector DMA is on, which holds commands back; ready: the drive is initialised. */
  datatype Drive = Drive(rx: Receive, tx: Transmit, irq: Requests, busy: bool, ready: bool, past: History)

  // ----- Checksums -----

  function Sum(s: seq<int>): int {
    if s == [] then 0 else Sum(s[..|s| - 1]) + s[|s| - 1]
  }

  /** The test both sides apply: all bytes add up to 0xFF. */
  predicate Sealed(s: seq<int>) {
    Sum(s) % 0x100 == 0xFF
  }

  function Checksum(s: seq<int>): int {
    (0xFF - Sum(s)) % 0x100
  }

  lemma ChecksumSeals(s: seq<int>)
    ensures Sealed(s + [Checksum(s)]) && 0 <= Checksum(s) < 0x100
  {
    assert (s + [Checksum(s)])[..|s|] == s;
  }

  // ----- Responses -----

  /** The buffer is cleared before a command is carried out, whatever is in it. */
  function Cleared(d: Drive): Drive {
    d.(rx := d.rx.(result := seq(BUFFER, _ => 0)))
  }

  /** A message is put into the buffer, whatever is in it. */
  function Written(d: Drive, message: Message): Drive
    requires |d.rx.result| == BUFFER
  {
    d.(rx := d.rx.(result := message + d.rx.result[|message|..]))
  }

  /** The first bytes of the buffer are sealed and become the response, unless one is on its
      way. */
  function Respond(d: Drive, len: int): Drive
    requires |d.rx.result| == BUFFER && len < BUFFER
  {
    if d.rx.length > 0 || len <= 0 then d
    else
      var sealed := d.rx.result[len := Checksum(d.rx.result[..len])];
      d.(rx := d.rx.(result := sealed, length := len + 1, offset := 0),
         irq := d.irq.(received := true),
         past := d.past.(accepted := d.past.accepted + [sealed[..len + 1]]))
  }

  /** One byte by DMA into the receive page. */
  function PutByte(d: Drive): Drive
    requires 0 <= d.rx.offset < |d.rx.result| && |d.rx.page| == 0x100 && 0 <= d.rx.index < 0x100
  {
    var b := d.rx.result[d.rx.offset];
    d.(rx := d.rx.(last := b, page := d.rx.page[d.rx.index := b], index := (d.rx.index + 1) % 0x100,
                   offset := d.rx.offset + 1),
       past := d.past.(delivered := d.past.delivered + [b]))
  }

  predicate Wellformed(d: Drive) {
    && |d.rx.result| == BUFFER && |d.rx.page| == 0x100 && 0 <= d.rx.index < 0x100
    && 0 <= d.rx.offset && 0 <= d.rx.length <= BUFFER
    && (d.rx.length > 0 ==> d.rx.offset <= d.rx.length)
  }

  /** DMA until the response or the room up to the end position runs out. */
  function Transfer(d: Drive): (r: Drive)
    requires Wellformed(d) && d.rx.length > 0
    ensures Wellformed(r) && r.rx.length == d.rx.length
    decreases d.rx.length - d.rx.offset
  {
    if d.rx.offset < d.rx.length then
      var e := PutByte(d);
      if e.rx.index == e.rx.end then e.(irq := e.irq.(receiveDone := true)) else Transfer(e)
    else d
  }

  function ReturnData(d: Drive): (r: Drive)
    requires Wellformed(d)
    ensures Wellformed(r)
  {
    if d.rx.length == 0 || !d.rx.dma || d.rx.index == d.rx.end || d.rx.delay > 0 then d
    else
      var e := Transfer(d);
      if e.rx.offset == e.rx.length
      then e.(rx := e.rx.(length := 0, offset := 0), irq := e.irq.(received := false, mayTransmit := true))
      else e
  }

  /** A read of the data register. */
  function ReadData(d: Drive): (r: Drive)
    requires Wellformed(d)
    ensures Wellformed(r)
  {
    if !d.rx.dma && d.rx.offset < d.rx.length then
      var b := d.rx.result[d.rx.offset];
      var e := d.(rx := d.rx.(last := b, offset := d.rx.offset + 1),
                  past := d.past.(delivered := d.past.delivered + [b]));
      if e.rx.offset == e.rx.length
      then e.(rx := e.rx.(length := 0), irq := e.irq.(received := false, mayTransmit := true))
      else e
    else d.(irq := d.irq.(received := false))
  }

  // ----- Commands -----

  /** Length of a command by its low four bits; negative for none. */
  function CommandLength(command: int): int {
    var c := command % 0x10;
    if c == 0 || c == 2 || c == 3 || c == 6 || c == 7 || c == 9 then 1
    else if c == 1 || c == 5 || c == 10 then 2
    else if c == 4 then 12
    else if c == 8 then 4
    else -1
  }

  /** One more byte of a command; complete, it becomes active. */
  function AddByte(t: Transmit, b: int): Transmit {
    var command := t.command + [b];
    var n := CommandLength(command[0]);
    if n < 0 then t.(command := command, badSum := false, unknown := true, active := 1)
    else if n + 1 > |command| then t.(command := command, badSum := false, unknown := false)
    else t.(command := command, badSum := !Sealed(command[..n + 1]), unknown := false, active := 1)
  }

  predicate CanSend(d: Drive) {
    d.ready && d.tx.active == 0 && d.rx.length == 0
  }

  /** A byte of a command by DMA. */
  function FetchCommand(d: Drive, b: int): Drive {
    if !d.tx.dma || d.busy || d.tx.index == d.tx.end || d.tx.delay > 0 || !CanSend(d) then d
    else
      var t := AddByte(d.tx, b);
      var index := (t.index + 1) % 0x100;
      d.(tx := t.(index := index), irq := d.irq.(transmitDone := d.irq.transmitDone || index == t.end))
  }

  /** The answer to a command that failed its test. */
  function ErrorReply(t: Transmit, door: int): Message
    requires t.command != []
  {
    [t.command[0] / 0x10 * 0x10 + 5, if t.badSum then 0x88 + door else 0x80 + door]
  }

  /** The answer to a command goes over the cleared buffer. */
  function Answered(d: Drive, answer: Message): Drive {
    Respond(Written(Cleared(d), answer), |answer|)
  }

  /** An active command is carried out: reply is what the drive answers to a good one. */
  function Execute(d: Drive, reply: Message, door: int): Drive
    requires d.tx.command != []
  {
    var e := d.(tx := d.tx.(command := [], active := 0));
    if d.tx.badSum || d.tx.unknown then Answered(e, ErrorReply(d.tx, door))
    else if reply == [] then Cleared(e).(irq := e.irq.(mayTransmit := true))
    else Answered(e, reply)
  }

  /** What the world supplies to one access: the byte at the transmit position, the
      drive's answer, and the state of its door. */
  datatype World = World(fetched: int, reply: Message, door: int)

  /** The work after every access. */
  function Work(d: Drive, w: World): Drive
    requires Wellformed(d) && (d.tx.active > 0 ==> d.tx.command != [])
  {
    var e := FetchCommand(ReturnData(d), w.fetched);
    if e.tx.active > 0 then
      var f := e.(tx := e.tx.(active := e.tx.active - 1));
      if f.tx.active == 0 && f.tx.command != [] then Execute(f, w.reply, w.door) else f
    else e
  }

  lemma WorkKeepsBuffer(d: Drive, w: World)
    requires Wellformed(d) && (d.tx.active > 0 ==> d.tx.command != [])
    ensures |Work(d, w).rx.result| == BUFFER
  {
    hide ReturnData, Checksum;
  }

  // ----- Runs -----

  /** What can happen: accesses by the guest, and a line of the display going by, at the
      end of which the drive may have something to say by itself. */
  datatype Access = ReadRegister | WriteRegister(b: int) | SetReceiveEnd(end: int) | SetTransmitEnd(end: int)
                  | SetFlags(rxDma: bool, txDma: bool, sectorDma: bool) | Other | Line(news: Message, nowReady: bool)

  predicate InOrder(d: Drive) {
    && Wellformed(d) && d.tx.active == 0
    && (d.rx.length > 0 ==> d.rx.offset < d.rx.length)
  }

  function Accessed(d: Drive, a: Access): (r: Drive)
    requires InOrder(d)
    ensures Wellformed(r) && (r.tx.active > 0 ==> r.tx.command != [])
  {
    match a
    case ReadRegister => ReadData(d)
    case WriteRegister(b) =>
      if d.tx.dma then d
      else
        var e := d.(irq := d.irq.(mayTransmit := false));
        if !CanSend(e) then e
        else
          var f := e.(tx := AddByte(e.tx, b % 0x100));
          if CanSend(f) then f.(irq := f.irq.(mayTransmit := true)) else f
    case SetReceiveEnd(end) =>
      d.(rx := d.rx.(end := end % 0x100, delay := 3), irq := d.irq.(receiveDone := false))
    case SetTransmitEnd(end) =>
      d.(tx := d.tx.(end := end % 0x100, delay := 3), irq := d.irq.(transmitDone := false))
    case SetFlags(rxDma, txDma, sectorDma) =>
      d.(rx := d.rx.(dma := rxDma), tx := d.tx.(dma := txDma), busy := sectorDma)
    case Other => d
    case Line(_, _) =>
      d.(rx := d.rx.(delay := if d.rx.delay > 0 then d.rx.delay - 1 else d.rx.delay),
         tx := d.tx.(delay := if d.tx.delay > 0 then d.tx.delay - 1 else d.tx.delay))
  }

  /** The drive speaks by itself only when no response is on its way; what it says goes over
      the buffer first. */
  function Spoken(d: Drive, a: Access): Drive
    requires |d.rx.result| == BUFFER
  {
    if a.Line? && d.rx.length == 0 then Respond(Written(d, a.news), |a.news|).(ready := d.ready || a.nowReady) else d
  }

  function Step(d: Drive, a: Access, w: World): Drive
    requires InOrder(d)
  {
    WorkKeepsBuffer(Accessed(d, a), w);
    Spoken(Work(Accessed(d, a), w), a)
  }
}
