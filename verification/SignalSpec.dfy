/** The signals the socket library owes to the clients that opened it. */
module SignalSpec {
  /** Tasks waiting for a signal, last requested first; per client whether it is idle (0),
      waiting (1) or cancelled (2), and the signal bits collected; the signals sent at
      the last interrupt. Sockets S are the live ones. */
  datatype Signals<S(==)> = Signals(queue: seq<S>, flag: map<S, int>, mask: map<S, set<nat>>, sent: map<S, set<nat>>)

  /** Shortcut is the host code that signals a client at once and sets its flag, without
      queueing it. */
  datatype Step<S> =
    | Request(s: S, bits: set<nat>)
    | Shortcut(s: S)
    | Cancel(s: S)
    | Interrupt
    | Open(s: S)
    | Close(s: S)

  function Without<S(==)>(q: seq<S>, s: S): (r: seq<S>)
    ensures forall x :: x in r ==> x in q
  {
    if q == [] then [] else if q[0] == s then q[1..] else [q[0]] + Without(q[1..], s)
  }

  /** Signals an interrupt sends: to those waiting, not to those cancelled. */
  function Sent<S(==)>(g: Signals<S>): map<S, set<nat>>
    requires forall s :: s in g.queue ==> s in g.flag && s in g.mask
  {
    map s | s in g.queue && g.flag[s] == 1 :: g.mask[s]
  }

  /** The queue holds live clients, each once, and only such as have a flag. */
  predicate Valid<S(==)>(g: Signals<S>) {
    && g.mask.Keys == g.flag.Keys
    && (forall s :: s in g.queue ==> s in g.flag)
    && (forall s :: s in g.flag ==> 0 <= g.flag[s] <= 2 && (s in g.queue ==> g.flag[s] != 0))
    && (forall i, j :: 0 <= i < j < |g.queue| ==> g.queue[i] != g.queue[j])
  }

  /** A step needs a live client, except Open, which brings a new one. */
  predicate Allowed<S(==)>(g: Signals<S>, t: Step<S>) {
    match t
    case Request(s, _) => s in g.flag
    case Shortcut(s) => s in g.flag
    case Cancel(s) => s in g.flag
    case Interrupt => true
    case Open(s) => s !in g.flag
    case Close(s) => s in g.flag
  }

  /** The client is queued unless its flag says it is; the bits are added either way. */
  function Requested<S(==)>(g: Signals<S>, s: S, bits: set<nat>): Signals<S>
    requires s in g.flag && s in g.mask
  {
    Signals(if g.flag[s] == 0 || g.queue == [] then [s] + g.queue else g.queue,
            g.flag[s := 1], g.mask[s := g.mask[s] + bits], g.sent)
  }

  function Taken<S(==)>(g: Signals<S>, t: Step<S>): Signals<S>
    requires Valid(g) && Allowed(g, t)
  {
    match t
    case Request(s, bits) =>
      Requested(g, s, bits)
    case Shortcut(s) => g.(flag := g.flag[s := 1])
    case Cancel(s) =>
      if g.flag[s] != 0 then g.(flag := g.flag[s := 2]) else g
    case Interrupt =>
      Signals([], map s | s in g.flag :: if s in g.queue then 0 else g.flag[s],
              map s | s in g.mask :: if s in g.queue && g.flag[s] == 1 then {} else g.mask[s], Sent(g))
    case Open(s) => g.(flag := g.flag[s := 0], mask := g.mask[s := {}])
    case Close(s) =>
      Signals(Without(g.queue, s), g.flag - {s}, g.mask - {s}, g.sent)
  }

  lemma {:induction false} WithoutMembers<S>(q: seq<S>, s: S)
    requires forall i, j :: 0 <= i < j < |q| ==> q[i] != q[j]
    ensures forall x :: x in Without(q, s) <==> x in q && x != s
    ensures forall i, j :: 0 <= i < j < |Without(q, s)| ==> Without(q, s)[i] != Without(q, s)[j]
  {
    if q == [] {
    } else if q[0] == s {
      assert forall x :: x in q <==> x == s || x in q[1..];
    } else {
      WithoutMembers(q[1..], s);
      var r := Without(q[1..], s);
      assert forall x :: x in q <==> x == q[0] || x in q[1..];
      assert q[0] !in r;
    }
  }

  /** Every step keeps the queue in order. */
  lemma TakenValid<S>(g: Signals<S>, t: Step<S>)
    requires Valid(g) && Allowed(g, t)
    ensures Valid(Taken(g, t))
  {
    match t
    case Request(s, _) =>
      if g.flag[s] == 0 {
        assert s !in g.queue;
      }
    case Shortcut(_) =>
    case Cancel(_) =>
    case Interrupt =>
    case Open(_) =>
    case Close(s) => WithoutMembers(g.queue, s);
  }

  // ----- Runs -----

  predicate Legal<S(==)>(steps: seq<Step<S>>)
    decreases |steps|, 0
  {
    steps == [] || (Legal(steps[..|steps| - 1]) && Allowed(After(steps[..|steps| - 1]), steps[|steps| - 1]))
  }

  /** The state after a run that starts without clients. */
  function After<S(==)>(steps: seq<Step<S>>): (g: Signals<S>)
    requires Legal(steps)
    ensures Valid(g)
    decreases |steps|, 1
  {
    if steps == [] then Signals([], map[], map[], map[])
    else
      TakenValid(After(steps[..|steps| - 1]), steps[|steps| - 1]);
      Taken(After(steps[..|steps| - 1]), steps[|steps| - 1])
  }

  /** Whether a client is queued, after a run: it asked while it had no flag, or while the
      queue was empty, and was not served since. */
  predicate Queued<S(==)>(steps: seq<Step<S>>, s: S)
    requires Legal(steps)
    decreases |steps|
  {
    if steps == [] then false
    else
      var before := steps[..|steps| - 1];
      LegalBefore(steps);
      match steps[|steps| - 1]
      case Request(x, _) =>
        Queued(before, s) || (x == s && (!Flagged(before, s) || After(before).queue == []))
      case Interrupt => false
      case Close(x) => x != s && Queued(before, s)
      case _ => Queued(before, s)
  }

  /** Whether it has a flag: it asked, or was signalled by the shortcut, and was not served
      from the queue since. */
  predicate Flagged<S(==)>(steps: seq<Step<S>>, s: S)
    requires Legal(steps)
    decreases |steps|
  {
    if steps == [] then false
    else
      var before := steps[..|steps| - 1];
      LegalBefore(steps);
      match steps[|steps| - 1]
      case Request(x, _) => x == s || Flagged(before, s)
      case Shortcut(x) => x == s || Flagged(before, s)
      case Interrupt => Flagged(before, s) && !Queued(before, s)
      case Open(x) => x != s && Flagged(before, s)
      case _ => Flagged(before, s)
  }

  /** And not cancelled since. */
  predicate Asked<S(==)>(steps: seq<Step<S>>, s: S)
    requires Legal(steps)
    decreases |steps|
  {
    if steps == [] then false
    else
      var before := steps[..|steps| - 1];
      LegalBefore(steps);
      match steps[|steps| - 1]
      case Request(x, _) => x == s || Asked(before, s)
      case Shortcut(x) => x == s || Asked(before, s)
      case Cancel(x) => x != s && Asked(before, s)
      case Interrupt => Asked(before, s) && !Queued(before, s)
      case Open(x) => x != s && Asked(before, s)
      case Close(_) => Asked(before, s)
  }

  /** The bits requested for s since it was opened or last served. */
  function Collected<S(==)>(steps: seq<Step<S>>, s: S): set<nat>
    requires Legal(steps)
    decreases |steps|
  {
    if steps == [] then {}
    else
      var before := steps[..|steps| - 1];
      LegalBefore(steps);
      match steps[|steps| - 1]
      case Request(x, bits) => if x == s then Collected(before, s) + bits else Collected(before, s)
      case Interrupt => if Asked(before, s) && Queued(before, s) then {} else Collected(before, s)
      case Open(x) => if x == s then {} else Collected(before, s)
      case _ => Collected(before, s)
  }

  lemma LegalBefore<S>(steps: seq<Step<S>>)
    requires steps != [] && Legal(steps)
    ensures var before, last := steps[..|steps| - 1], steps[|steps| - 1];
            Legal(before) && Valid(After(before)) && Allowed(After(before), last)
            && After(steps) == Taken(After(before), last)
  {
    hide Taken, Valid, Allowed;
  }

  /** What one step does to a client. */
  lemma TakenAt<S>(g: Signals<S>, t: Step<S>, s: S)
    requires Valid(g) && Allowed(g, t) && s in Taken(g, t).flag
    ensures (s !in g.flag ==> t == Open(s)) && t != Close(s)
    ensures Taken(g, t).flag[s] == match t
              case Request(x, _) => if x == s then 1 else g.flag[s]
              case Shortcut(x) => if x == s then 1 else g.flag[s]
              case Cancel(x) => if x == s && g.flag[s] != 0 then 2 else g.flag[s]
              case Interrupt => if s in g.queue then 0 else g.flag[s]
              case Open(x) => if x == s then 0 else g.flag[s]
              case Close(_) => g.flag[s]
    ensures var h := Taken(g, t);
            s in h.mask && h.mask[s] == match t
              case Request(x, bits) => if x == s then g.mask[s] + bits else g.mask[s]
              case Interrupt => if s in g.queue && g.flag[s] == 1 then {} else g.mask[s]
              case Open(x) => if x == s then {} else g.mask[s]
              case _ => g.mask[s]
  {
    hide Without;
  }

  lemma QueueAt<S>(g: Signals<S>, t: Step<S>, s: S)
    requires Valid(g) && Allowed(g, t)
    ensures s in Taken(g, t).queue <==> match t
              case Request(x, _) => s in g.queue || (x == s && (g.flag[s] == 0 || g.queue == []))
              case Interrupt => false
              case Close(x) => x != s && s in g.queue
              case _ => s in g.queue
  {
    if t.Close? {
      WithoutMembers(g.queue, t.s);
    }
  }

  /** After any run the history of its steps tells who is queued, with which flag and which
      bits. */
  lemma {:induction false} FlagsFollowHistory<S>(steps: seq<Step<S>>, s: S)
    requires Legal(steps)
    ensures s in After(steps).queue <==> Queued(steps, s)
    ensures s in After(steps).flag ==>
      && s in After(steps).mask
      && (After(steps).flag[s] != 0 <==> Flagged(steps, s))
      && (After(steps).flag[s] == 1 <==> Asked(steps, s))
      && After(steps).mask[s] == Collected(steps, s)
    decreases |steps|
  {
    hide Taken, Valid, Allowed;
    if steps == [] {
    } else {
      var before, last := steps[..|steps| - 1], steps[|steps| - 1];
      LegalBefore(steps);
      FlagsFollowHistory(before, s);
      QueueAt(After(before), last, s);
      AsksAlive(After(before), last);
      if s in After(steps).flag {
        TakenAt(After(before), last, s);
      }
    }
  }

  lemma AsksAlive<S>(g: Signals<S>, t: Step<S>)
    requires Allowed(g, t)
    ensures t.Request? ==> t.s in g.flag
  {
  }

  /** After any run, the next interrupt signals exactly the live clients that are queued and
      asked, each with every bit collected for it, and none is left queued. */
  lemma InterruptSignals<S>(steps: seq<Step<S>>)
    requires Legal(steps)
    ensures var g, h := After(steps), Taken(After(steps), Interrupt);
      && h.queue == []
      && (forall s :: s in h.sent <==> s in g.flag && Queued(steps, s) && Asked(steps, s))
      && (forall s :: s in h.sent ==> h.sent[s] == Collected(steps, s))
      && (forall s :: s in h.flag ==> h.flag[s] == if Queued(steps, s) then 0 else g.flag[s])
  {
    var g := After(steps);
    forall s | s in g.flag
      ensures s in g.mask && (s in g.queue <==> Queued(steps, s)) && (g.flag[s] == 1 <==> Asked(steps, s))
      ensures g.mask[s] == Collected(steps, s)
    {
      FlagsFollowHistory(steps, s);
    }
    hide After, Asked, Queued, Collected, Legal;
  }

  // ----- What the shortcut costs -----

  /** Whether the host took the shortcut for s since s was last opened. */
  predicate Shortened<S(==)>(steps: seq<Step<S>>, s: S) {
    if steps == [] then false
    else
      var before := steps[..|steps| - 1];
      match steps[|steps| - 1]
      case Shortcut(x) => x == s || Shortened(before, s)
      case Open(x) => x != s && Shortened(before, s)
      case _ => Shortened(before, s)
  }

  /** As long as the host does not take the shortcut for a client, the client is queued
      exactly while it has a flag. */
  lemma {:induction false} FlaggedIsQueued<S>(steps: seq<Step<S>>, s: S)
    requires Legal(steps) && s in After(steps).flag && !Shortened(steps, s)
    ensures Flagged(steps, s) <==> Queued(steps, s)
    decreases |steps|
  {
    hide Taken, Valid, Allowed;
    FlagsFollowHistory(steps, s);
    if steps != [] {
      var before, last := steps[..|steps| - 1], steps[|steps| - 1];
      LegalBefore(steps);
      LiveBefore(After(before), last, s);
      FlagsFollowHistory(before, s);
      if s in After(before).flag {
        FlaggedIsQueued(before, s);
      } else {
        DeadIsNotQueued(After(before), s);
      }
    }
  }

  lemma LiveBefore<S>(g: Signals<S>, t: Step<S>, s: S)
    requires Valid(g) && Allowed(g, t) && s in Taken(g, t).flag
    ensures s !in g.flag ==> t == Open(s)
    ensures t == Open(s) ==> s !in g.flag
    ensures t != Close(s)
  {
  }

  lemma DeadIsNotQueued<S>(g: Signals<S>, s: S)
    requires Valid(g) && s !in g.flag
    ensures s !in g.queue
  {
  }

  predicate Harmless<S(==)>(t: Step<S>, s: S) {
    t != Interrupt && t != Cancel(s) && t != Close(s) && t != Shortcut(s)
  }

  /** Steps that neither serve, cancel, close nor shorten s. */
  predicate Patient<S(==)>(later: seq<Step<S>>, s: S) {
    forall k :: 0 <= k < |later| ==> Harmless(later[k], s)
  }

  /** ... and do not ask for it either. */
  predicate Elsewhere<S(==)>(later: seq<Step<S>>, s: S) {
    Patient(later, s) && forall k :: 0 <= k < |later| ==> !(later[k].Request? && later[k].s == s)
  }

  lemma Shorter<S>(base: seq<Step<S>>, later: seq<Step<S>>)
    requires later != []
    ensures (base + later)[..|base + later| - 1] == base + later[..|later| - 1]
    ensures (base + later)[|base + later| - 1] == later[|later| - 1]
  {
  }

  lemma PatientBefore<S>(later: seq<Step<S>>, s: S)
    requires later != [] && Patient(later, s)
    ensures Patient(later[..|later| - 1], s) && Harmless(later[|later| - 1], s)
    ensures Elsewhere(later, s) ==>
      Elsewhere(later[..|later| - 1], s) && !(later[|later| - 1].Request? && later[|later| - 1].s == s)
  {
  }

  /** A client that is live stays live, and what it waits for is only added to. */
  lemma {:induction false} Waits<S>(base: seq<Step<S>>, later: seq<Step<S>>, s: S)
    requires Legal(base + later) && Patient(later, s)
    ensures Legal(base)
    ensures s in After(base).flag ==>
      && s in After(base + later).flag
      && (Queued(base, s) ==> Queued(base + later, s)) && (Asked(base, s) ==> Asked(base + later, s))
      && Collected(base, s) <= Collected(base + later, s)
    ensures s in After(base).flag && Elsewhere(later, s) ==>
      Queued(base + later, s) == Queued(base, s) && Collected(base + later, s) == Collected(base, s)
    decreases |later|
  {
    hide Taken, Valid, Allowed, Patient, Elsewhere;
    if later == [] {
      assert base + later == base;
    } else {
      var shorter, last := later[..|later| - 1], later[|later| - 1];
      Shorter(base, later);
      PatientBefore(later, s);
      LegalBefore(base + later);
      Waits(base, shorter, s);
      if s in After(base).flag {
        StaysLive(After(base + shorter), last, s);
      }
    }
  }

  lemma StaysLive<S>(g: Signals<S>, t: Step<S>, s: S)
    requires Valid(g) && Allowed(g, t) && s in g.flag && t != Close(s)
    ensures s in Taken(g, t).flag && t != Open(s)
  {
  }

  /** A request leads to a signal at the next interrupt, whatever happens to others before
      it, unless the client has a flag but is not queued, and another client is. */
  lemma RequestLost<S>(steps: seq<Step<S>>, s: S, bits: set<nat>, later: seq<Step<S>>)
    requires Legal(steps) && s in After(steps).flag
    requires Legal(steps + [Request(s, bits)] + later) && Elsewhere(later, s)
    ensures s in Taken(After(steps + [Request(s, bits)] + later), Interrupt).sent
            <==> Queued(steps, s) || !Flagged(steps, s) || After(steps).queue == []
  {
    hide Taken, After, Patient;
    var more := steps + [Request(s, bits)];
    assert more[..|more| - 1] == steps;
    RequestKept(steps, s, bits);
    Waits(more, later, s);
    InterruptSignals(more + later);
  }

  lemma RequestKept<S>(steps: seq<Step<S>>, s: S, bits: set<nat>)
    requires Legal(steps) && s in After(steps).flag
    ensures Legal(steps + [Request(s, bits)]) && s in After(steps + [Request(s, bits)]).flag
    ensures Collected(steps + [Request(s, bits)], s) == Collected(steps, s) + bits
  {
    LegalMore(steps, Request(s, bits));
    var more := steps + [Request(s, bits)];
    assert more[..|more| - 1] == steps;
    hide After, Legal;
  }

  /** Without the shortcut none is lost: the next interrupt signals the client, with every
      bit collected before, in the request and since. */
  lemma NoRequestLost<S>(steps: seq<Step<S>>, s: S, bits: set<nat>, later: seq<Step<S>>)
    requires Legal(steps) && s in After(steps).flag && !Shortened(steps, s)
    requires Legal(steps + [Request(s, bits)] + later) && Patient(later, s)
    ensures var all := steps + [Request(s, bits)] + later;
      && s in Taken(After(all), Interrupt).sent
      && Taken(After(all), Interrupt).sent[s] == Collected(all, s) >= Collected(steps, s) + bits
  {
    hide Taken, After, Patient;
    var more := steps + [Request(s, bits)];
    assert more[..|more| - 1] == steps;
    FlaggedIsQueued(steps, s);
    RequestKept(steps, s, bits);
    Waits(more, later, s);
    InterruptSignals(more + later);
  }

  lemma LegalMore<S>(steps: seq<Step<S>>, t: Step<S>)
    requires Legal(steps) && Allowed(After(steps), t)
    ensures Legal(steps + [t]) && After(steps + [t]) == Taken(After(steps), t)
  {
    assert (steps + [t])[..|steps|] == steps;
    hide Taken, Allowed, Valid;
  }

  /** Such a run: two clients, the shortcut for one and a request for the other. */
  lemma LostRequest<S>(a: S, b: S, bits: set<nat>)
    requires a != b
    ensures var steps := [Open(a)] + [Open(b)] + [Shortcut(a)] + [Request(b, bits)] + [Request(a, bits)];
            Legal(steps) && a in After(steps).flag && a !in Taken(After(steps), Interrupt).sent
  {
    var none: seq<Step<S>> := [];
    assert none + [Open(a)] == [Open(a)];
    LegalMore(none, Open(a));
    LegalMore([Open(a)], Open(b));
    LegalMore([Open(a)] + [Open(b)], Shortcut(a));
    LegalMore([Open(a)] + [Open(b)] + [Shortcut(a)], Request(b, bits));
    LegalMore([Open(a)] + [Open(b)] + [Shortcut(a)] + [Request(b, bits)], Request(a, bits));
    hide Legal;
  }
}
