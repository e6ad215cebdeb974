/**
 * Bounded queues that make room by dropping their oldest entry, and the fan-out of one
 * producer to many of them.  The camera proxy, the print broker and the plugin host all use
 * this discipline; the histories kept here exist only to state what a run does.
 */
module DropOldest {
  import opened Prelude

  // A capacity of zero or less is unbounded, as for asyncio.Queue.
  predicate Full<T>(q: seq<T>, capacity: int) {
    0 < capacity <= |q|
  }

  function Push<T>(q: seq<T>, capacity: int, x: T): seq<T> {
    (if Full(q, capacity) then q[1..] else q) + [x]
  }

  datatype Op<T> = Put(x: T) | Take(limit: nat)

  // pushed and delivered are histories: everything put so far, everything taken so far.
  datatype Channel<T> = Channel(queue: seq<T>, pushed: seq<T>, delivered: seq<T>)

  function Step<T>(c: Channel<T>, capacity: int, op: Op<T>): Channel<T> {
    match op
    case Put(x) => Channel(Push(c.queue, capacity, x), c.pushed + [x], c.delivered)
    case Take(limit) =>
      var n := Min(limit, |c.queue|);
      Channel(c.queue[n..], c.pushed, c.delivered + c.queue[..n])
  }

  function Run<T>(c: Channel<T>, capacity: int, ops: seq<Op<T>>): Channel<T> {
    if ops == [] then c else Step(Run(c, capacity, ops[..|ops| - 1]), capacity, ops[|ops| - 1])
  }

  function Empty<T>(): Channel<T> {
    Channel([], [], [])
  }

  function Lost<T>(c: Channel<T>): int {
    |c.pushed| - |c.delivered| - |c.queue|
  }

  ghost predicate Increasing(ix: seq<nat>) {
    forall i, j | 0 <= i < j < |ix| :: ix[i] < ix[j]
  }

  // xs picks, in order and each at most once, the entries of all at the positions ix.
  ghost predicate Picks<T>(xs: seq<T>, all: seq<T>, ix: seq<nat>) {
    && |ix| == |xs|
    && Increasing(ix)
    && forall i | 0 <= i < |ix| :: ix[i] < |all| && xs[i] == all[ix[i]]
  }

  // The queue is the newest part of what was pushed.
  ghost predicate IsSuffix<T>(c: Channel<T>) {
    |c.queue| <= |c.pushed| && c.queue == c.pushed[|c.pushed| - |c.queue|..]
  }

  ghost predicate InOrder<T>(c: Channel<T>, capacity: int, ix: seq<nat>) {
    && (capacity > 0 ==> |c.queue| <= capacity)
    && IsSuffix(c)
    && Picks(c.delivered, c.pushed, ix)
    && (ix != [] ==> ix[|ix| - 1] < |c.pushed| - |c.queue|)
    && (c.pushed != [] && c.queue == [] ==> ix != [] && ix[|ix| - 1] == |c.pushed| - 1)
  }

  lemma TakeExtendsPicks<T>(c: Channel<T>, ix: seq<nat>, n: nat) returns (more: seq<nat>)
    requires IsSuffix(c) && n <= |c.queue|
    requires Picks(c.delivered, c.pushed, ix)
    requires ix != [] ==> ix[|ix| - 1] < |c.pushed| - |c.queue|
    ensures Picks(c.delivered + c.queue[..n], c.pushed, more)
    ensures |more| == |ix| + n && more[..|ix|] == ix
    ensures n > 0 ==> more[|more| - 1] == |c.pushed| - |c.queue| + n - 1
  {
    var base := |c.pushed| - |c.queue|;
    var taken: seq<nat> := seq(n, i requires 0 <= i < n => base + i);
    more := ix + taken;
    forall i | 0 <= i < |more|
      ensures more[i] < |c.pushed| && (c.delivered + c.queue[..n])[i] == c.pushed[more[i]]
    {
      if i >= |ix| {
        assert c.queue[i - |ix|] == c.pushed[base + (i - |ix|)];
      }
    }
  }

  lemma PutKeepsOrder<T>(c: Channel<T>, capacity: int, x: T, ix: seq<nat>)
    requires InOrder(c, capacity, ix)
    ensures InOrder(Step(c, capacity, Put(x)), capacity, ix)
  {}

  lemma TakeKeepsOrder<T>(c: Channel<T>, capacity: int, limit: nat, ix: seq<nat>) returns (more: seq<nat>)
    requires InOrder(c, capacity, ix)
    ensures InOrder(Step(c, capacity, Take(limit)), capacity, more)
  {
    var n := Min(limit, |c.queue|);
    more := TakeExtendsPicks(c, ix, n);
    assert c.pushed[|c.pushed| - |c.queue|..][n..] == c.pushed[|c.pushed| - |c.queue| + n..];
  }

  /**
   * In every run the queue is the contiguous suffix of what was pushed, within capacity;
   * what was delivered is an in-order selection from before that suffix; and the newest push
   * is either still queued or the last thing delivered.
   */
  lemma {:induction false} RunInOrder<T>(capacity: int, ops: seq<Op<T>>) returns (ix: seq<nat>)
    ensures InOrder(Run(Empty(), capacity, ops), capacity, ix)
  {
    if ops == [] {
      ix := [];
    } else {
      var before := Run(Empty(), capacity, ops[..|ops| - 1]);
      ix := RunInOrder(capacity, ops[..|ops| - 1]);
      match ops[|ops| - 1]
      case Put(x) => PutKeepsOrder(before, capacity, x, ix);
      case Take(limit) => ix := TakeKeepsOrder(before, capacity, limit, ix);
    }
  }

  // How many of the ops put something on a queue that was full.
  function Overflows<T>(capacity: int, ops: seq<Op<T>>): nat {
    if ops == [] then 0
    else
      Overflows(capacity, ops[..|ops| - 1]) +
      if ops[|ops| - 1].Put? && Full(Run(Empty(), capacity, ops[..|ops| - 1]).queue, capacity) then 1 else 0
  }

  // The position, among everything pushed, of the oldest entry still queued.
  function Base<T>(c: Channel<T>): int {
    |c.pushed| - |c.queue|
  }

  // Positions of the entries dropped: at each push that met a full queue, the oldest one queued.
  function LostAt<T>(capacity: int, ops: seq<Op<T>>): seq<int> {
    if ops == [] then []
    else
      var before := Run(Empty(), capacity, ops[..|ops| - 1]);
      LostAt(capacity, ops[..|ops| - 1]) +
      if ops[|ops| - 1].Put? && Full(before.queue, capacity) then [Base(before)] else []
  }

  // Positions of the entries delivered.
  function DeliveredAt<T>(capacity: int, ops: seq<Op<T>>): seq<int> {
    if ops == [] then []
    else
      var before := Run(Empty(), capacity, ops[..|ops| - 1]);
      DeliveredAt(capacity, ops[..|ops| - 1]) +
      match ops[|ops| - 1]
      case Put(_) => []
      case Take(limit) => seq(Min(limit, |before.queue|), i => Base(before) + i)
  }

  // Every position before the queue is lost or delivered, and not both.
  ghost predicate Partition(lost: seq<int>, delivered: seq<int>, base: int) {
    && (forall p :: p in lost || p in delivered <==> 0 <= p < base)
    && (forall p | p in lost :: p !in delivered)
    && (forall i, j | 0 <= i < j < |lost| :: lost[i] < lost[j])
  }

  lemma {:induction false} PartitionLost(lost: seq<int>, delivered: seq<int>, base: nat)
    requires Partition(lost, delivered, base)
    ensures Partition(lost + [base], delivered, base + 1)
  {
    forall p ensures p in lost + [base] || p in delivered <==> 0 <= p < base + 1 {
      assert p in lost + [base] <==> p in lost || p == base;
    }
    assert forall i | 0 <= i < |lost| :: lost[i] in lost;
  }

  lemma {:induction false} PartitionTaken(lost: seq<int>, delivered: seq<int>, base: nat, n: nat)
    requires Partition(lost, delivered, base)
    ensures Partition(lost, delivered + seq(n, i => base + i), base + n)
  {
    var taken := seq(n, i => base + i);
    forall p ensures p in taken <==> base <= p < base + n {
      if base <= p < base + n {
        assert taken[p - base] == p;
      }
    }
    forall p ensures p in delivered + taken <==> p in delivered || p in taken {}
  }

  // Delivered entries are what was pushed at the positions given for them.
  ghost predicate Found<T>(c: Channel<T>, at: seq<int>) {
    |at| == |c.delivered| && forall i | 0 <= i < |at| :: 0 <= at[i] < |c.pushed| && c.delivered[i] == c.pushed[at[i]]
  }

  lemma {:induction false} FoundTake<T>(c: Channel<T>, at: seq<int>, n: nat)
    requires Found(c, at) && IsSuffix(c) && n <= |c.queue|
    ensures Found(Channel(c.queue[n..], c.pushed, c.delivered + c.queue[..n]), at + seq(n, i => Base(c) + i))
  {}

  lemma {:induction false} RunIsSuffix<T>(capacity: int, ops: seq<Op<T>>)
    ensures IsSuffix(Run(Empty(), capacity, ops))
  {
    var ix := RunInOrder(capacity, ops);
  }

  /**
   * Conservation, by position: every entry pushed is queued, delivered or lost, and only one of these.
   * The lost ones are the oldest entries queued whenever a push met a full queue, one for each such push.
   */
  lemma {:induction false} LostOnlyWhenFull<T>(capacity: int, ops: seq<Op<T>>)
    ensures var c := Run(Empty(), capacity, ops);
            && Lost(c) == Overflows(capacity, ops) == |LostAt(capacity, ops)|
            && IsSuffix(c)
            && Partition(LostAt(capacity, ops), DeliveredAt(capacity, ops), Base(c))
            && Found(c, DeliveredAt(capacity, ops))
  {
    hide Partition, Found, IsSuffix, Increasing;
    RunIsSuffix(capacity, ops);
    if ops == [] {
      NothingPushed<T>();
    } else {
      var earlier, op := ops[..|ops| - 1], ops[|ops| - 1];
      LostOnlyWhenFull(capacity, earlier);
      var before := Run(Empty(), capacity, earlier);
      SuffixBase(before);
      var lost, delivered := LostAt(capacity, earlier), DeliveredAt(capacity, earlier);
      match op
      case Put(x) =>
        FoundPut(before, capacity, x, delivered);
        assert delivered + [] == delivered && lost + [] == lost;
        if Full(before.queue, capacity) {
          PartitionLost(lost, delivered, Base(before));
        }
      case Take(limit) =>
        assert lost + [] == lost;
        PartitionTaken(lost, delivered, Base(before), Min(limit, |before.queue|));
        FoundTake(before, delivered, Min(limit, |before.queue|));
    }
  }

  lemma NothingPushed<T>()
    ensures Partition([], [], 0) && Found(Empty<T>(), [])
  {}

  lemma SuffixBase<T>(c: Channel<T>)
    requires IsSuffix(c)
    ensures Base(c) >= 0
  {}

  lemma FoundPut<T>(c: Channel<T>, capacity: int, x: T, at: seq<int>)
    requires Found(c, at)
    ensures Found(Step(c, capacity, Put(x)), at)
  {}

  // ---------------------------------------------------------------------
  // Fan-out: one producer, a queue for each subscriber.

  type Subscriber = nat

  datatype Fan<T> = Fan(latest: Option<T>, queues: map<Subscriber, seq<T>>)

  datatype FanOp<T> =
    | Join(id: Subscriber)
    | Leave(id: Subscriber)
    | Publish(x: T)
    | Receive(id: Subscriber)

  function PushAll<T>(queues: map<Subscriber, seq<T>>, capacity: int, x: T): map<Subscriber, seq<T>> {
    map id | id in queues :: Push(queues[id], capacity, x)
  }

  function Welcome<T>(latest: Option<T>): seq<T> {
    if latest.Some? then [latest.value] else []
  }

  function FanStep<T>(f: Fan<T>, capacity: int, op: FanOp<T>): Fan<T> {
    match op
    case Join(id) => f.(queues := f.queues[id := Welcome(f.latest)])
    case Leave(id) => f.(queues := f.queues - {id})
    case Publish(x) => Fan(Some(x), PushAll(f.queues, capacity, x))
    case Receive(id) =>
      if id in f.queues && f.queues[id] != [] then f.(queues := f.queues[id := f.queues[id][1..]]) else f
  }

  function FanRun<T>(f: Fan<T>, capacity: int, ops: seq<FanOp<T>>): Fan<T> {
    if ops == [] then f else FanStep(FanRun(f, capacity, ops[..|ops| - 1]), capacity, ops[|ops| - 1])
  }

  // The part of a fan-out run that one subscriber can see.
  function SeenBy<T>(ops: seq<FanOp<T>>, id: Subscriber): seq<Op<T>> {
    if ops == [] then []
    else
      SeenBy(ops[..|ops| - 1], id) +
      match ops[|ops| - 1]
      case Publish(x) => [Put(x)]
      case Receive(j) => if j == id then [Take(1)] else []
      case _ => []
  }

  predicate Stays<T>(ops: seq<FanOp<T>>, id: Subscriber) {
    forall i | 0 <= i < |ops| :: ops[i] != Join(id) && ops[i] != Leave(id)
  }

  lemma {:induction false} QueueIsPrivate<T>(f: Fan<T>, capacity: int, ops: seq<FanOp<T>>, id: Subscriber,
                                             c: Channel<T>)
    requires id in f.queues && c.queue == f.queues[id]
    requires Stays(ops, id)
    ensures id in FanRun(f, capacity, ops).queues
    ensures FanRun(f, capacity, ops).queues[id] == Run(c, capacity, SeenBy(ops, id)).queue
  {
    if ops != [] {
      var shorter := ops[..|ops| - 1];
      QueueIsPrivate(f, capacity, shorter, id, c);
      var seen := SeenBy(shorter, id);
      match ops[|ops| - 1]
      case Publish(x) =>
        assert (seen + [Put(x)])[..|seen|] == seen;
      case Receive(j) =>
        if j == id {
          assert (seen + [Take(1)])[..|seen|] == seen;
        } else {
          assert seen + [] == seen;
        }
      case _ =>
        assert seen + [] == seen;
    }
  }

  /**
   * A subscriber that joins and stays holds exactly what a queue of its own would hold, fed the
   * frame cached when it joined and then every publication: nobody else's pace matters.
   */
  lemma SlowSubscribersDoNotMatter<T>(f: Fan<T>, capacity: int, ops: seq<FanOp<T>>, id: Subscriber)
      returns (own: Channel<T>, ix: seq<nat>)
    requires Stays(ops, id)
    ensures var welcome := if f.latest.Some? then [Put(f.latest.value)] else [];
            own == Run(Empty(), capacity, welcome + SeenBy(ops, id))
    ensures var after := FanRun(FanStep(f, capacity, Join(id)), capacity, ops);
            id in after.queues && after.queues[id] == own.queue
    ensures InOrder(own, capacity, ix)
  {
    var welcome := if f.latest.Some? then [Put(f.latest.value)] else [];
    var seen := SeenBy(ops, id);
    var start := Run(Empty(), capacity, welcome);
    assert start.queue == Welcome(f.latest) by {
      if f.latest.Some? {
        assert welcome[..|welcome| - 1] == [];
        assert Run(Empty(), capacity, []) == Empty<T>();
      }
    }
    QueueIsPrivate(FanStep(f, capacity, Join(id)), capacity, ops, id, start);
    RunSplits(Empty(), capacity, welcome, seen);
    own := Run(Empty(), capacity, welcome + seen);
    ix := RunInOrder(capacity, welcome + seen);
  }

  lemma {:induction false} RunSplits<T>(c: Channel<T>, capacity: int, a: seq<Op<T>>, b: seq<Op<T>>)
    ensures Run(c, capacity, a + b) == Run(Run(c, capacity, a), capacity, b)
  {
    if b == [] {
      assert a + b == a;
    } else {
      RunSplits(c, capacity, a, b[..|b| - 1]);
      assert (a + b)[..|a + b| - 1] == a + b[..|b| - 1];
    }
  }
}
