/** Plugin events on their way to the gateway: the host's bounded queue, and the pump that polls and dispatches. */
module CloudEvents {
  import opened Prelude
  import DropOldest

  const MAX_QUEUED := 1000
  const MAX_DRAIN := 200

  datatype HostEvent = HostEvent(kind: string, payload: string)

  /** The host's queue. */
  class EventQueue {
    var q: seq<HostEvent>

    constructor ()
      ensures q == []
    {
      q := [];
    }

    method Push(event: HostEvent)
      modifies this
      ensures q == DropOldest.Push(old(q), MAX_QUEUED, event)
    {
      if |q| >= MAX_QUEUED {
        q := q[1..];
      }
      q := q + [event];
    }

    method Drain() returns (out: seq<HostEvent>)
      modifies this
      ensures |out| == Min(MAX_DRAIN, |old(q)|)
      ensures out + q == old(q)
    {
      var n := if |q| < MAX_DRAIN then |q| else MAX_DRAIN;
      out := q[..n];
      q := q[n..];
    }
  }

  function Handled(events: seq<HostEvent>, handlers: set<string>): seq<HostEvent> {
    if events == [] then []
    else
      Handled(events[..|events| - 1], handlers) +
      if events[|events| - 1].kind in handlers then [events[|events| - 1]] else []
  }

  // What the pump hands to its handlers over a sequence of polls; a failed poll brings nothing.
  function DispatchedBy(polls: seq<Option<seq<HostEvent>>>, handlers: set<string>): seq<HostEvent> {
    if polls == [] then []
    else
      var batch := polls[|polls| - 1];
      DispatchedBy(polls[..|polls| - 1], handlers) + if batch.Some? then Handled(batch.value, handlers) else []
  }

  /** Polls in a loop; every event of a batch goes to the handler of its kind, in order. */
  method RunPump(polls: seq<Option<seq<HostEvent>>>, handlers: set<string>) returns (dispatched: seq<HostEvent>)
    ensures dispatched == DispatchedBy(polls, handlers)
  {
    dispatched := [];
    for i := 0 to |polls|
      invariant dispatched == DispatchedBy(polls[..i], handlers)
    {
      assert polls[..i + 1][..i] == polls[..i];
      if polls[i].None? {
        continue;
      }
      var events := polls[i].value;
      ghost var before := dispatched;
      for j := 0 to |events|
        invariant dispatched == before + Handled(events[..j], handlers)
      {
        assert events[..j + 1][..j] == events[..j];
        if events[j].kind in handlers {
          dispatched := dispatched + [events[j]];
        }
      }
      assert events[..|events|] == events;
    }
    assert polls[..|polls|] == polls;
  }

  // ---------------------------------------------------------------------
  // Both ends together: the host pushes and the pump polls, in any order.

  // A poll always drains the host; its answer may be lost on the way.
  datatype Op = HostPush(event: HostEvent) | Poll(arrives: bool)

  datatype Pipe = Pipe(channel: DropOldest.Channel<HostEvent>, dispatched: seq<HostEvent>)

  function Step(p: Pipe, op: Op, handlers: set<string>): Pipe {
    match op
    case HostPush(event) => p.(channel := DropOldest.Step(p.channel, MAX_QUEUED, DropOldest.Put(event)))
    case Poll(arrives) =>
      var batch := p.channel.queue[..Min(MAX_DRAIN, |p.channel.queue|)];
      Pipe(DropOldest.Step(p.channel, MAX_QUEUED, DropOldest.Take(MAX_DRAIN)),
           p.dispatched + if arrives then Handled(batch, handlers) else [])
  }

  function Run(ops: seq<Op>, handlers: set<string>): Pipe {
    if ops == [] then Pipe(DropOldest.Empty(), [])
    else Step(Run(ops[..|ops| - 1], handlers), ops[|ops| - 1], handlers)
  }

  function ChannelOps(ops: seq<Op>): seq<DropOldest.Op<HostEvent>> {
    seq(|ops|, i requires 0 <= i < |ops| =>
      match ops[i]
      case HostPush(event) => DropOldest.Put(event)
      case Poll(_) => DropOldest.Take(MAX_DRAIN))
  }

  lemma {:induction false} PipeChannel(ops: seq<Op>, handlers: set<string>)
    ensures Run(ops, handlers).channel == DropOldest.Run(DropOldest.Empty(), MAX_QUEUED, ChannelOps(ops))
  {
    if ops != [] {
      PipeChannel(ops[..|ops| - 1], handlers);
      assert ChannelOps(ops)[..|ops| - 1] == ChannelOps(ops[..|ops| - 1]);
    }
  }

  lemma PicksOneMore(xs: seq<HostEvent>, all: seq<HostEvent>, ix: seq<nat>, x: HostEvent) returns (more: seq<nat>)
    requires DropOldest.Picks(xs, all, ix)
    ensures DropOldest.Picks(xs + [x], all + [x], more)
  {
    more := ix + [|all|];
  }

  lemma {:induction false} HandledPicks(events: seq<HostEvent>, handlers: set<string>) returns (ix: seq<nat>)
    ensures DropOldest.Picks(Handled(events, handlers), events, ix)
    ensures forall e | e in Handled(events, handlers) :: e.kind in handlers
  {
    hide DropOldest.Picks, DropOldest.Increasing;
    ix := [];
    NoPicks();
    if events != [] {
      var shorter, e := events[..|events| - 1], events[|events| - 1];
      ix := HandledPicks(shorter, handlers);
      assert events == shorter + [e];
      PicksOfLonger(Handled(shorter, handlers), shorter, ix, e);
      if e.kind in handlers {
        ix := PicksOneMore(Handled(shorter, handlers), shorter, ix, e);
      } else {
        assert Handled(shorter, handlers) + [] == Handled(shorter, handlers);
      }
    }
  }

  // Positions within a batch, moved to where the batch begins.
  function Shifted(ix: seq<nat>, base: nat): seq<nat> {
    seq(|ix|, i requires 0 <= i < |ix| => base + ix[i])
  }

  lemma {:induction false} ShiftIncreases(ia: seq<nat>, ib: seq<nat>, base: nat)
    requires DropOldest.Increasing(ia) && DropOldest.Increasing(ib) && (ia != [] ==> ia[|ia| - 1] < base)
    ensures DropOldest.Increasing(ia + Shifted(ib, base))
  {
    var ix := ia + Shifted(ib, base);
    forall i, j | 0 <= i < j < |ix| ensures ix[i] < ix[j] {
      if j >= |ia| {
        assert ix[j] == base + ib[j - |ia|];
        assert i < |ia| ==> ix[i] <= ia[|ia| - 1];
      }
    }
  }

  lemma {:induction false} PicksExtend(a: seq<HostEvent>, b: seq<HostEvent>, all: seq<HostEvent>, base: nat,
                                       ia: seq<nat>, ib: seq<nat>, batch: seq<HostEvent>) returns (ix: seq<nat>)
    requires DropOldest.Picks(a, all, ia) && (ia != [] ==> ia[|ia| - 1] < base)
    requires base + |batch| <= |all| && batch == all[base..base + |batch|]
    requires DropOldest.Picks(b, batch, ib)
    ensures DropOldest.Picks(a + b, all, ix)
    ensures ix != [] ==> ix[|ix| - 1] < base + |batch|
  {
    hide DropOldest.Increasing;
    ix := ia + Shifted(ib, base);
    ShiftIncreases(ia, ib, base);
    forall i | 0 <= i < |ix| ensures ix[i] < |all| && (a + b)[i] == all[ix[i]] {
      if i >= |ia| {
        var k := i - |ia|;
        assert (a + b)[i] == b[k] && ix[i] == base + ib[k];
        assert batch[ib[k]] == all[base + ib[k]];
      }
    }
  }

  lemma {:induction false} PollDispatches(p: Pipe, arrives: bool, handlers: set<string>, ix: seq<nat>)
      returns (more: seq<nat>)
    requires DropOldest.IsSuffix(p.channel) && DropOldest.Picks(p.dispatched, p.channel.pushed, ix)
    requires ix != [] ==> ix[|ix| - 1] < |p.channel.pushed| - |p.channel.queue|
    requires forall e | e in p.dispatched :: e.kind in handlers
    ensures var n := Step(p, Poll(arrives), handlers);
            && DropOldest.Picks(n.dispatched, n.channel.pushed, more)
            && (more != [] ==> more[|more| - 1] < |n.channel.pushed| - |n.channel.queue|)
            && (forall e | e in n.dispatched :: e.kind in handlers)
  {
    hide DropOldest.Picks, DropOldest.Increasing, Handled;
    var batch := p.channel.queue[..Min(MAX_DRAIN, |p.channel.queue|)];
    var base := |p.channel.pushed| - |p.channel.queue|;
    assert batch == p.channel.pushed[base..base + |batch|];
    var ib := HandledPicks(batch, handlers);
    if arrives {
      more := PicksExtend(p.dispatched, Handled(batch, handlers), p.channel.pushed, base, ix, ib, batch);
    } else {
      more := ix;
      assert p.dispatched + [] == p.dispatched;
    }
  }

  /**
   * Through any interleaving of pushes and polls, each pushed event is dispatched at most once, the
   * events dispatched are in push order and of handled kinds, and those still queued come after them.
   */
  lemma {:induction false} DispatchedInOrder(ops: seq<Op>, handlers: set<string>) returns (ix: seq<nat>)
    ensures var p := Run(ops, handlers);
            && DropOldest.IsSuffix(p.channel) && |p.channel.queue| <= MAX_QUEUED
            && DropOldest.Picks(p.dispatched, p.channel.pushed, ix)
            && (ix != [] ==> ix[|ix| - 1] < |p.channel.pushed| - |p.channel.queue|)
            && (forall e | e in p.dispatched :: e.kind in handlers)
  {
    hide DropOldest.Picks, DropOldest.Increasing, Handled, DropOldest.InOrder, DropOldest.IsSuffix;
    if ops == [] {
      ix := [];
      NoPicks();
      ChannelIsOrdered(ops, handlers);
    } else {
      var earlier, op := ops[..|ops| - 1], ops[|ops| - 1];
      var before := Run(earlier, handlers);
      ix := DispatchedInOrder(earlier, handlers);
      ChannelIsOrdered(ops, handlers);
      match op
      case HostPush(event) => PicksOfLonger(before.dispatched, before.channel.pushed, ix, event);
      case Poll(arrives) => ix := PollDispatches(before, arrives, handlers, ix);
    }
  }

  lemma {:induction false} ChannelIsOrdered(ops: seq<Op>, handlers: set<string>)
    ensures DropOldest.IsSuffix(Run(ops, handlers).channel) && |Run(ops, handlers).channel.queue| <= MAX_QUEUED
  {
    PipeChannel(ops, handlers);
    var ix := DropOldest.RunInOrder(MAX_QUEUED, ChannelOps(ops));
  }

  // The answers the pump gets from its polls; one that is lost on the way counts as failed.
  function Answers(ops: seq<Op>, handlers: set<string>): seq<Option<seq<HostEvent>>> {
    if ops == [] then []
    else
      var earlier := ops[..|ops| - 1];
      Answers(earlier, handlers) +
      match ops[|ops| - 1]
      case HostPush(_) => []
      case Poll(arrives) =>
        var queue := Run(earlier, handlers).channel.queue;
        [if arrives then Some(queue[..Min(MAX_DRAIN, |queue|)]) else None]
  }

  lemma DispatchedByMore(polls: seq<Option<seq<HostEvent>>>, poll: Option<seq<HostEvent>>, handlers: set<string>)
    ensures DispatchedBy(polls + [poll], handlers)
         == DispatchedBy(polls, handlers) + if poll.Some? then Handled(poll.value, handlers) else []
  {
    assert (polls + [poll])[..|polls|] == polls;
  }

  lemma {:induction false} PumpDispatches(ops: seq<Op>, handlers: set<string>)
    ensures DispatchedBy(Answers(ops, handlers), handlers) == Run(ops, handlers).dispatched
  {
    hide Handled, DispatchedBy;
    if ops == [] {
      NothingDispatched(handlers);
    } else {
      var earlier := ops[..|ops| - 1];
      PumpDispatches(earlier, handlers);
      var before := Answers(earlier, handlers);
      match ops[|ops| - 1]
      case HostPush(_) =>
        assert before + [] == before;
      case Poll(arrives) =>
        var queue := Run(earlier, handlers).channel.queue;
        DispatchedByMore(before, if arrives then Some(queue[..Min(MAX_DRAIN, |queue|)]) else None, handlers);
    }
  }

  lemma NothingDispatched(handlers: set<string>)
    ensures DispatchedBy([], handlers) == []
  {}

  /**
   * The pump's loop, fed by the host through any interleaving: what it dispatches is in push order, each event at
   * most once.
   */
  method PumpAgainstHost(ops: seq<Op>, handlers: set<string>) returns (dispatched: seq<HostEvent>, ghost ix: seq<nat>)
    ensures dispatched == Run(ops, handlers).dispatched
    ensures DropOldest.Picks(dispatched, Run(ops, handlers).channel.pushed, ix)
    ensures forall e | e in dispatched :: e.kind in handlers
  {
    ix := DispatchedInOrder(ops, handlers);
    PumpDispatches(ops, handlers);
    dispatched := RunPump(Answers(ops, handlers), handlers);
  }

  lemma NoPicks()
    ensures DropOldest.Picks<HostEvent>([], [], [])
  {}

  lemma PicksOfLonger(xs: seq<HostEvent>, all: seq<HostEvent>, ix: seq<nat>, x: HostEvent)
    requires DropOldest.Picks(xs, all, ix)
    ensures DropOldest.Picks(xs, all + [x], ix)
  {}
}
