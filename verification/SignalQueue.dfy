/** The queue of clients to signal, threaded through their socket bases. */
module SignalQueue {
  import opened SignalSpec

  /** The socket base of one client task. */
  class SocketBase {
    var nextsig: SocketBase?
    var dosignal: int
    var sigstosend: set<nat>
    const eventsigs: set<nat>
    const signal: nat

    constructor (eventsigs: set<nat>, signal: nat)
      ensures nextsig == null && dosignal == 0 && sigstosend == {}
      ensures this.eventsigs == eventsigs && this.signal == signal
    {
      nextsig, dosignal, sigstosend := null, 0, {};
      this.eventsigs, this.signal := eventsigs, signal;
    }
  }

  /** The chain from head runs through exactly the bases of q. */
  ghost predicate Chain(head: SocketBase?, q: seq<SocketBase>)
    reads q
  {
    && head == At(q, 0)
    && forall i :: 0 <= i < |q| ==> q[i].nextsig == At(q, i + 1)
  }

  ghost function At(q: seq<SocketBase>, k: nat): SocketBase? {
    if k < |q| then q[k] else null
  }

  class Queue {
    var head: SocketBase?
    var interruptRequested: bool
    ghost var queue: seq<SocketBase>
    ghost var live: set<SocketBase>
    var sent: map<SocketBase, set<nat>>

    constructor ()
      ensures Valid() && live == {} && Model() == Signals([], map[], map[], map[])
    {
      head, interruptRequested, queue, live, sent := null, false, [], {}, map[];
    }

    ghost function Model(): Signals<SocketBase>
      reads this`queue, this`live, this`sent, live`dosignal, live`sigstosend
    {
      Signals(queue, Flags(), Masks(), sent)
    }

    ghost function Flags(): map<SocketBase, int>
      reads this`live, live`dosignal
    {
      map s | s in live :: s.dosignal
    }

    ghost function Masks(): map<SocketBase, set<nat>>
      reads this`live, live`sigstosend
    {
      map s | s in live :: s.sigstosend
    }

    ghost predicate Valid()
      reads this`head, this`queue, this`live, this`sent, live, queue
    {
      && (forall s :: s in queue ==> s in live) && Chain(head, queue)
      && SignalSpec.Valid(Model())
    }

    lemma ModelIs(sb: SocketBase)
      requires sb in live
      ensures Model().queue == queue && sb in Model().flag && sb in Model().mask && Model().sent == sent
      ensures Model().flag[sb] == sb.dosignal && Model().mask[sb] == sb.sigstosend
    {
    }

    lemma ValidAgain()
      requires Chain(head, queue) && SignalSpec.Valid(Model())
      ensures Valid()
    {
      forall s | s in queue ensures s in live {
        assert s in Model().flag;
      }
    }

    /** The bits of a request go to the client's collection. */
    method Collect(sb: SocketBase, bits: set<nat>)
      requires Valid() && sb in live
      modifies sb`sigstosend
      ensures Chain(head, queue)
      ensures Model() == old(Model()).(mask := old(Model()).mask[sb := old(Model()).mask[sb] + bits])
    {
      sb.sigstosend := sb.sigstosend + bits;
    }

    /** Puts a client at the head of the queue. */
    method Enqueue(sb: SocketBase)
      requires sb in live && sb !in queue && Chain(head, queue)
      modifies this`head, this`queue, sb`nextsig
      ensures Chain(head, queue) && queue == [sb] + old(queue)
      ensures Model() == old(Model()).(queue := [sb] + old(queue))
    {
      sb.nextsig := head;
      head := sb;
      queue := [sb] + queue;
    }

    method SetFlag(sb: SocketBase, flag: int)
      requires sb in live && Chain(head, queue)
      modifies sb`dosignal
      ensures Chain(head, queue) && Model() == old(Model()).(flag := old(Model()).flag[sb := flag])
    {
      sb.dosignal := flag;
    }

    /** Asks for the client to be signalled at the next interrupt. */
    method Add(sb: SocketBase, events: bool)
      requires Valid() && sb in live
      modifies this`head, this`queue, this`interruptRequested, sb
      ensures Valid() && interruptRequested
      ensures var bits := if events && sb.eventsigs != {} then sb.eventsigs else {sb.signal};
              Model() == Taken(old(Model()), Request(sb, bits))
    {
      hide Chain, SignalSpec.Valid, Taken, Requested, Queue.Model;
      ghost var g := Model();
      ghost var bits := if events && sb.eventsigs != {} then sb.eventsigs else {sb.signal};
      ModelIs(sb);
      FlagsOf(g, sb);
      HeadOf(head, queue);
      TakenValid(g, Request(sb, bits));
      RequestInSteps(g, sb, bits);
      if events && sb.eventsigs != {} {
        Collect(sb, sb.eventsigs);
      } else {
        Collect(sb, {sb.signal});
      }
      QueueAndFlag(sb);
      interruptRequested := true;
      ValidAgain();
    }

    method QueueAndFlag(sb: SocketBase)
      requires sb in live && Chain(head, queue) && (sb.dosignal == 0 ==> sb !in queue)
      modifies this`head, this`queue, sb`nextsig, sb`dosignal
      ensures Chain(head, queue)
      ensures var q := if old(sb.dosignal) == 0 || old(queue) == [] then [sb] + old(queue) else old(queue);
              Model() == old(Model()).(queue := q).(flag := old(Model()).flag[sb := 1])
    {
      hide Chain, Queue.Model;
      HeadOf(head, queue);
      QueueOfModel();
      if sb.dosignal == 0 || head == null {
        Enqueue(sb);
      }
      SetFlag(sb, 1);
    }

    /** The host's way around the queue: the flag alone is set. */
    method Shortcut(sb: SocketBase)
      requires Valid() && sb in live
      modifies sb`dosignal
      ensures Valid() && Model() == Taken(old(Model()), SignalSpec.Shortcut(sb))
    {
      hide Chain, SignalSpec.Valid, Queue.Model;
      ghost var g := Model();
      ModelIs(sb);
      TakenValid(g, SignalSpec.Shortcut(sb));
      SetFlag(sb, 1);
      ValidAgain();
    }

    /** Cancels a pending request; the client stays queued. */
    method Cancel(sb: SocketBase)
      requires Valid() && sb in live
      modifies sb`dosignal
      ensures Valid() && Model() == Taken(old(Model()), SignalSpec.Cancel(sb))
    {
      hide Chain, SignalSpec.Valid, Queue.Model;
      ghost var g := Model();
      ModelIs(sb);
      TakenValid(g, SignalSpec.Cancel(sb));
      if sb.dosignal != 0 {
        SetFlag(sb, 2);
      }
      ValidAgain();
    }

    /** A new client. */
    method Open(sb: SocketBase)
      requires Valid() && sb !in live && sb.dosignal == 0 && sb.sigstosend == {}
      modifies this`live
      ensures Valid() && Model() == Taken(old(Model()), SignalSpec.Open(sb))
    {
      hide SignalSpec.Valid, Chain;
      TakenValid(Model(), SignalSpec.Open(sb));
      live := live + {sb};
      assert Model().flag == old(Model()).flag[sb := 0];
      assert Model().mask == old(Model()).mask[sb := {}];
      ValidAgain();
    }

    /** One client of the interrupt's walk. */
    method SignalClient(sb: SocketBase)
      requires sb in live && Chain(head, queue)
      modifies this`sent, sb`sigstosend, sb`dosignal
      ensures Chain(head, queue)
      ensures sb in old(Model()).flag && sb in old(Model()).mask && Model() == Served(old(Model()), sb)
    {
      hide Chain, Queue.Model;
      ModelIs(sb);
      if sb.dosignal == 1 {
        Record(sb);
        ClearBits(sb);
      }
      SetFlag(sb, 0);
    }

    method Record(sb: SocketBase)
      requires sb in live && Chain(head, queue)
      modifies this`sent
      ensures Chain(head, queue)
      ensures Model() == old(Model()).(sent := old(Model()).sent[sb := old(Model()).mask[sb]])
    {
      sent := sent[sb := sb.sigstosend];
    }

    method ClearBits(sb: SocketBase)
      requires sb in live && Chain(head, queue)
      modifies sb`sigstosend
      ensures Chain(head, queue) && Model() == old(Model()).(mask := old(Model()).mask[sb := {}])
    {
      sb.sigstosend := {};
    }

    method StartSending()
      requires Chain(head, queue)
      modifies this`sent, this`interruptRequested
      ensures Chain(head, queue) && Model() == old(Model()).(sent := map[]) && !interruptRequested
    {
      interruptRequested := false;
      sent := map[];
    }

    lemma NextInQueue(n: nat)
      requires Chain(head, queue) && n < |queue|
      ensures queue[n].nextsig == At(queue, n + 1)
    {
    }

    /** The walk has signalled the first n clients of the queue it began with. */
    ghost predicate Walking(g: Signals<SocketBase>, n: nat)
      requires SignalSpec.Valid(g) && n <= |g.queue|
      reads this`head, this`queue, this`live, this`sent, live, queue
    {
      Chain(head, queue) && queue == g.queue && Model() == Partial(g, n)
    }

    method Walk(sb: SocketBase, ghost g: Signals<SocketBase>, ghost n: nat)
      requires SignalSpec.Valid(g) && n < |g.queue| && Walking(g, n) && sb == g.queue[n]
      modifies this`sent, sb`sigstosend, sb`dosignal
      ensures Walking(g, n + 1) && sb.nextsig == At(queue, n + 1)
    {
      hide SignalSpec.Valid, Chain, Partial, Served, Queue.Model;
      PartialNext(g, n);
      NextInQueue(n);
      LiveInPartial(g, n);
      SignalClient(sb);
    }

    lemma LiveInPartial(g: Signals<SocketBase>, n: nat)
      requires SignalSpec.Valid(g) && n < |g.queue| && Model() == Partial(g, n)
      ensures g.queue[n] in live
    {
      assert g.queue[n] in Model().flag;
    }

    /** Sends every waiting signal and empties the queue. */
    method Interrupt()
      requires Valid()
      modifies this`head, this`queue, this`sent, this`interruptRequested, live
      ensures Valid() && !interruptRequested && Model() == Taken(old(Model()), SignalSpec.Interrupt)
    {
      hide SignalSpec.Valid, Taken, Partial, Chain, Queue.Model;
      ghost var g := Model();
      TakenValid(g, SignalSpec.Interrupt);
      NothingServed(g);
      AllServed(g);
      HeadIsFirst(head, queue);
      QueueOfModel();
      LiveInQueue(g);
      StartSending();
      WalkQueue(g);
      ClearQueue();
      ValidAgain();
    }

    method WalkQueue(ghost g: Signals<SocketBase>)
      requires SignalSpec.Valid(g) && Walking(g, 0) && head == At(g.queue, 0)
      requires forall s :: s in g.queue ==> s in live
      modifies this`sent, live
      ensures Walking(g, |g.queue|)
    {
      hide SignalSpec.Valid, Partial, Chain, Queue.Model;
      var sb := head;
      ghost var n := 0;
      while sb != null
        invariant n <= |g.queue| && Walking(g, n) && sb == At(g.queue, n)
        decreases |g.queue| - n
      {
        Walk(sb, g, n);
        sb := sb.nextsig;
        n := n + 1;
      }
    }

    lemma LiveInQueue(g: Signals<SocketBase>)
      requires SignalSpec.Valid(g) && g == Model()
      ensures forall s :: s in g.queue ==> s in live
    {
    }

    lemma QueueOfModel()
      ensures Model().queue == queue
    {
    }

    method ClearQueue()
      modifies this`head, this`queue
      ensures Chain(head, queue) && Model() == old(Model()).(queue := [])
    {
      head, queue := null, [];
    }

    /** The client before sb in the queue, by walking along it; null if sb is not behind one. */
    method FindBefore(sb: SocketBase) returns (before: SocketBase?, ghost k: nat)
      requires Chain(head, queue) && head != sb
      ensures k < |queue| + 1
      ensures before == null ==> sb !in queue
      ensures before != null ==> k + 1 < |queue| && before == queue[k] && sb == queue[k + 1]
    {
      before, k := head, 0;
      HeadIsFirst(head, queue);
      while before != null
        invariant k <= |queue| && before == At(queue, k) && sb !in queue[..k]
        invariant k < |queue| ==> queue[k] != sb
        decreases |queue| - k
      {
        NextInQueue(k);
        if before.nextsig == sb {
          return;
        }
        assert queue[..k + 1] == queue[..k] + [queue[k]];
        before := before.nextsig;
        k := k + 1;
      }
      assert queue[..k] == queue;
    }

    /** Takes the first client out of the chain. */
    method UnlinkFirst(sb: SocketBase)
      requires Chain(head, queue) && queue != [] && queue[0] == sb
      modifies this`head, this`queue
      ensures Chain(head, queue) && queue == old(queue[1..]) && Model() == old(Model()).(queue := queue)
    {
      hide Queue.Flags, Queue.Masks;
      NextInQueue(0);
      head := sb.nextsig;
      Relinked(head, queue, 0);
      assert queue[..0] + queue[0 + 1..] == queue[1..];
      queue := queue[1..];
    }

    /** Takes the client behind another out of the chain. */
    method UnlinkBehind(sb: SocketBase, before: SocketBase, ghost k: nat)
      requires Chain(head, queue) && (forall i, j :: 0 <= i < j < |queue| ==> queue[i] != queue[j])
      requires k + 1 < |queue| && queue[k + 1] == sb && before == queue[k]
      modifies this`queue, before`nextsig
      ensures Chain(head, queue) && queue == old(queue[..k + 1] + queue[k + 2..])
      ensures Model() == old(Model()).(queue := queue)
    {
      hide Queue.Flags, Queue.Masks;
      before.nextsig := sb.nextsig;
      Relinked(head, queue, k + 1);
      queue := queue[..k + 1] + queue[k + 2..];
    }

    /** Finds the client in the queue and takes it out, if it is there. */
    method Remove(sb: SocketBase)
      requires Chain(head, queue) && (forall i, j :: 0 <= i < j < |queue| ==> queue[i] != queue[j])
      modifies this`head, this`queue, queue
      ensures Chain(head, queue) && queue == Without(old(queue), sb)
      ensures Model() == old(Model()).(queue := queue)
    {
      hide Chain, Without, Queue.Model;
      QueueOfModel();
      WithoutAbsent(queue, sb);
      if head == sb {
        AtHead(head, queue);
        WithoutAt(queue, sb, 0);
        assert queue[..0] + queue[0 + 1..] == queue[1..];
        UnlinkFirst(sb);
      } else {
        var before;
        ghost var k;
        before, k := FindBefore(sb);
        if before != null {
          WithoutAt(queue, sb, k + 1);
          UnlinkBehind(sb, before, k);
        }
      }
    }

    /** A client goes away: it leaves the queue if it is there. */
    method Close(sb: SocketBase)
      requires Valid() && sb in live
      modifies this`head, this`queue, this`live, live
      ensures Valid() && Model() == Taken(old(Model()), SignalSpec.Close(sb))
    {
      hide SignalSpec.Valid, Taken, Without, Chain, Queue.Model;
      ghost var g := Model();
      ModelIs(sb);
      TakenValid(g, SignalSpec.Close(sb));
      AllApart(g);
      LiveInQueue(g);
      Remove(sb);
      Forget(sb, g);
      ValidAgain();
    }

    method Forget(sb: SocketBase, ghost g: Signals<SocketBase>)
      requires SignalSpec.Valid(g) && sb in live && Chain(head, queue) && sb in g.flag
      requires Model() == g.(queue := Without(g.queue, sb))
      modifies this`live
      ensures Chain(head, queue) && Model() == Taken(g, SignalSpec.Close(sb))
    {
      hide Chain, SignalSpec.Valid, Without;
      live := live - {sb};
      assert Model().flag == g.flag - {sb};
      assert Model().mask == g.mask - {sb};
    }
  }

  /** A chain with the link over element k is a chain through the others. */
  lemma Relinked(head: SocketBase?, q: seq<SocketBase>, k: nat)
    requires k < |q| && head == (if k == 0 then At(q, 1) else At(q, 0))
    requires forall i :: 0 <= i < |q| ==> q[i].nextsig == if i == k - 1 then At(q, k + 1) else At(q, i + 1)
    ensures Chain(head, q[..k] + q[k + 1..])
  {
    var r := q[..k] + q[k + 1..];
    forall i | 0 <= i < |r| ensures r[i].nextsig == At(r, i + 1) {
      if i < k {
        assert r[i] == q[i];
      } else {
        assert r[i] == q[i + 1];
      }
    }
  }

  lemma AtHead(head: SocketBase?, queue: seq<SocketBase>)
    requires Chain(head, queue) && head != null
    ensures queue != [] && queue[0] == head
  {
  }

  lemma {:induction false} WithoutAt(q: seq<SocketBase>, s: SocketBase, k: nat)
    requires k < |q| && q[k] == s && forall i, j :: 0 <= i < j < |q| ==> q[i] != q[j]
    ensures Without(q, s) == q[..k] + q[k + 1..]
  {
    if k == 0 {
    } else {
      WithoutAt(q[1..], s, k - 1);
      assert [q[0]] + (q[1..][..k - 1] + q[1..][k..]) == q[..k] + q[k + 1..];
    }
  }

  lemma {:induction false} WithoutAbsent(q: seq<SocketBase>, s: SocketBase)
    ensures s !in q ==> Without(q, s) == q
  {
    if q != [] {
      WithoutAbsent(q[1..], s);
    }
  }

  lemma HeadIsFirst(head: SocketBase?, queue: seq<SocketBase>)
    requires Chain(head, queue)
    ensures head == At(queue, 0)
  {
  }

  /** One client served by an interrupt. */
  ghost function Served(g: Signals<SocketBase>, s: SocketBase): Signals<SocketBase>
    requires s in g.flag && s in g.mask
  {
    if g.flag[s] == 1 then g.(flag := g.flag[s := 0], mask := g.mask[s := {}], sent := g.sent[s := g.mask[s]])
    else g.(flag := g.flag[s := 0])
  }

  /** An interrupt after the first n clients of the queue. */
  ghost function Partial(g: Signals<SocketBase>, n: nat): Signals<SocketBase>
    requires SignalSpec.Valid(g) && n <= |g.queue|
  {
    Signals(g.queue, map s | s in g.flag :: if s in g.queue[..n] then 0 else g.flag[s],
            map s | s in g.mask :: if s in g.queue[..n] && g.flag[s] == 1 then {} else g.mask[s],
            map s | s in g.queue[..n] && g.flag[s] == 1 :: g.mask[s])
  }

  lemma NothingServed(g: Signals<SocketBase>)
    requires SignalSpec.Valid(g)
    ensures Partial(g, 0) == g.(sent := map[])
  {
    var p := Partial(g, 0);
    assert p.flag == g.flag;
    assert p.mask == g.mask;
    assert p.sent == map[];
  }

  lemma AllServed(g: Signals<SocketBase>)
    requires SignalSpec.Valid(g)
    ensures Partial(g, |g.queue|).(queue := []) == Taken(g, SignalSpec.Interrupt)
  {
    assert g.queue[..|g.queue|] == g.queue;
    var p, t := Partial(g, |g.queue|), Taken(g, SignalSpec.Interrupt);
    assert p.flag == t.flag;
    assert p.mask == t.mask;
    assert p.sent == t.sent;
  }

  lemma PartialNext(g: Signals<SocketBase>, n: nat)
    requires SignalSpec.Valid(g) && n < |g.queue|
    ensures var p, s := Partial(g, n), g.queue[n];
            s in p.flag && s in p.mask && Served(p, s) == Partial(g, n + 1)
  {
    FlagsServed(g, n);
    BitsServed(g, n);
    SignalsServed(g, n);
    hide Partial;
  }

  lemma Stretch(g: Signals<SocketBase>, n: nat)
    requires SignalSpec.Valid(g) && n < |g.queue|
    ensures g.queue[n] !in g.queue[..n] && g.queue[n] in g.flag && g.queue[n] in g.mask
    ensures forall x :: x in g.queue[..n + 1] <==> x in g.queue[..n] || x == g.queue[n]
  {
    AllApart(g);
  }

  lemma FlagsServed(g: Signals<SocketBase>, n: nat)
    requires SignalSpec.Valid(g) && n < |g.queue|
    ensures Partial(g, n + 1).flag == Partial(g, n).flag[g.queue[n] := 0]
    ensures g.queue[n] in Partial(g, n).flag && Partial(g, n).flag[g.queue[n]] == g.flag[g.queue[n]]
  {
    hide SignalSpec.Valid;
    Stretch(g, n);
  }

  lemma BitsServed(g: Signals<SocketBase>, n: nat)
    requires SignalSpec.Valid(g) && n < |g.queue|
    ensures g.queue[n] in g.flag && g.queue[n] in g.mask
    ensures Partial(g, n + 1).mask == if g.flag[g.queue[n]] == 1 then Partial(g, n).mask[g.queue[n] := {}]
                                      else Partial(g, n).mask
    ensures g.queue[n] in Partial(g, n).mask && Partial(g, n).mask[g.queue[n]] == g.mask[g.queue[n]]
  {
    hide SignalSpec.Valid;
    Stretch(g, n);
  }

  lemma SignalsServed(g: Signals<SocketBase>, n: nat)
    requires SignalSpec.Valid(g) && n < |g.queue|
    ensures g.queue[n] in g.flag && g.queue[n] in g.mask && Partial(g, n + 1).queue == Partial(g, n).queue
    ensures Partial(g, n + 1).sent
         == if g.flag[g.queue[n]] == 1 then Partial(g, n).sent[g.queue[n] := g.mask[g.queue[n]]]
            else Partial(g, n).sent
  {
    hide SignalSpec.Valid;
    Stretch(g, n);
  }

  lemma AllApart(g: Signals<SocketBase>)
    requires SignalSpec.Valid(g)
    ensures forall i, j :: 0 <= i < j < |g.queue| ==> g.queue[i] != g.queue[j]
  {
  }

  lemma HeadOf(head: SocketBase?, queue: seq<SocketBase>)
    requires Chain(head, queue)
    ensures head == null <==> queue == []
  {
  }

  /** A request in the order the code makes it. */
  lemma RequestInSteps(g: Signals<SocketBase>, sb: SocketBase, bits: set<nat>)
    requires SignalSpec.Valid(g) && sb in g.flag
    ensures sb in g.mask
    ensures var m := g.(mask := g.mask[sb := g.mask[sb] + bits]);
            var q := if g.flag[sb] == 0 || g.queue == [] then m.(queue := [sb] + g.queue) else m;
            q.(flag := q.flag[sb := 1]) == Taken(g, Request(sb, bits))
  {
  }

  lemma FlagsOf(g: Signals<SocketBase>, sb: SocketBase)
    requires SignalSpec.Valid(g) && sb in g.flag
    ensures g.flag[sb] == 0 ==> sb !in g.queue
  {
  }
}
