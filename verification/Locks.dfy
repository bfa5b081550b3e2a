/** Lock order (src/supervisor.rs): every operation takes transaction mutex, gate, class locks
    in name order, route locks, state, pool, drain list strictly in that order, so no
    interleaving of any number of operations can block for ever. Every lock has a queue and
    serves it in order, which makes the gate prefer a waiting writer. */
module Locks {
  datatype Lock = Transaction | Gate | Class(index: nat) | Route(index: nat) | State | Pool | DrainList

  datatype Mode = Shared | Exclusive

  datatype Action = Acquire(lock: Lock, mode: Mode) | TryAcquire(lock: Lock, mode: Mode) | Release(lock: Lock)

  type ThreadId = nat

  datatype Thread = Thread(held: map<Lock, Mode>, todo: seq<Action>)

  datatype World = World(threads: map<ThreadId, Thread>, queues: map<Lock, seq<ThreadId>>)

  function Tier(l: Lock): nat {
    match l case Transaction => 0 case Gate => 1 case Class(_) => 2 case Route(_) => 3 case State => 4 case Pool => 5 case DrainList => 6
  }

  function Index(l: Lock): nat {
    if l.Class? || l.Route? then l.index else 0
  }

  /** The lock order; classes and routes are numbered in name order. */
  predicate Before(a: Lock, b: Lock) {
    Tier(a) < Tier(b) || (Tier(a) == Tier(b) && Index(a) < Index(b))
  }

  // ---------------------------------------------------------------------------------
  // Programs.

  function After(held: set<Lock>, todo: seq<Action>): set<Lock>
    decreases |todo|
  {
    if todo == [] then held
    else After(match todo[0] case Release(l) => held - {l} case a => held + {a.lock}, todo[1..])
  }

  /** Each lock is acquired after all held ones in the order, and released while held. */
  predicate InOrder(held: set<Lock>, todo: seq<Action>)
    decreases |todo|
  {
    todo == [] ||
    match todo[0]
    case Release(l) => l in held && InOrder(held - {l}, todo[1..])
    case a => (forall h | h in held :: Before(h, a.lock)) && InOrder(held + {a.lock}, todo[1..])
  }

  predicate Disciplined(held: set<Lock>, todo: seq<Action>) {
    InOrder(held, todo) && After(held, todo) == {}
  }

  // ---------------------------------------------------------------------------------
  // Steps.

  datatype Step =
    | Spawn(thread: ThreadId, program: seq<Action>)
    | Ask(thread: ThreadId)
    | Grant(lock: Lock)
    | Try(thread: ThreadId, otherwise: seq<Action>)
    | LetGo(thread: ThreadId)
    | Abandon(thread: ThreadId, keep: set<Lock>, rest: seq<Action>)

  function Queue(w: World, l: Lock): seq<ThreadId> {
    if l in w.queues then w.queues[l] else []
  }

  predicate Holds(w: World, t: ThreadId, l: Lock) {
    t in w.threads && l in w.threads[t].held
  }

  predicate Conflicts(w: World, u: ThreadId, l: Lock, m: Mode) {
    Holds(w, u, l) && (m.Exclusive? || w.threads[u].held[l].Exclusive?)
  }

  predicate Compatible(w: World, l: Lock, m: Mode) {
    forall u | u in w.threads :: !Conflicts(w, u, l, m)
  }

  predicate Wants(threads: map<ThreadId, Thread>, t: ThreadId, l: Lock) {
    t in threads && threads[t].todo != [] && threads[t].todo[0].Acquire? && threads[t].todo[0].lock == l
  }

  predicate Waits(w: World, t: ThreadId) {
    t in w.threads && w.threads[t].todo != [] && w.threads[t].todo[0].Acquire? && t in Queue(w, w.threads[t].todo[0].lock)
  }

  /** A cancelled or failing operation lets go of all but `keep`, which a worker of its still
      owns and gives back in `rest`. */
  predicate Enabled(w: World, step: Step) {
    match step
    case Spawn(t, program) => t !in w.threads && Disciplined({}, program)
    case Ask(t) => t in w.threads && w.threads[t].todo != [] && w.threads[t].todo[0].Acquire? && !Waits(w, t)
    case Grant(l) =>
      Queue(w, l) != [] && Wants(w.threads, Queue(w, l)[0], l) && Compatible(w, l, w.threads[Queue(w, l)[0]].todo[0].mode)
    case Try(t, otherwise) =>
      && t in w.threads && w.threads[t].todo != [] && w.threads[t].todo[0].TryAcquire?
      && Disciplined(w.threads[t].held.Keys, otherwise)
    case LetGo(t) => t in w.threads && w.threads[t].todo != [] && w.threads[t].todo[0].Release?
    case Abandon(t, keep, rest) => t in w.threads && keep <= w.threads[t].held.Keys && Disciplined(keep, rest)
  }

  function Taken(th: Thread): Thread
    requires th.todo != [] && !th.todo[0].Release?
  {
    Thread(th.held[th.todo[0].lock := th.todo[0].mode], th.todo[1..])
  }

  function Without(q: seq<ThreadId>, t: ThreadId): seq<ThreadId> {
    if q == [] then [] else (if q[0] == t then [] else [q[0]]) + Without(q[1..], t)
  }

  predicate Available(w: World, l: Lock, m: Mode) {
    Queue(w, l) == [] && Compatible(w, l, m)
  }

  function Dequeued(w: World, t: ThreadId): map<Lock, seq<ThreadId>> {
    map l | l in w.queues :: Without(w.queues[l], t)
  }

  function Do(w: World, step: Step): World
    requires Enabled(w, step)
  {
    match step
    case Spawn(t, program) => w.(threads := w.threads[t := Thread(map[], program)])
    case Ask(t) =>
      var l := w.threads[t].todo[0].lock;
      w.(queues := w.queues[l := Queue(w, l) + [t]])
    case Grant(l) =>
      var t := Queue(w, l)[0];
      World(w.threads[t := Taken(w.threads[t])], w.queues[l := Queue(w, l)[1..]])
    case Try(t, otherwise) =>
      var th := w.threads[t];
      w.(threads := w.threads[t := if Available(w, th.todo[0].lock, th.todo[0].mode) then Taken(th) else th.(todo := otherwise)])
    case LetGo(t) =>
      var th := w.threads[t];
      w.(threads := w.threads[t := Thread(th.held - {th.todo[0].lock}, th.todo[1..])])
    case Abandon(t, keep, rest) =>
      World(w.threads[t := Thread(map l | l in w.threads[t].held && l in keep :: w.threads[t].held[l], rest)], Dequeued(w, t))
  }

  predicate Runs(w: World, steps: seq<Step>)
    decreases |steps|
  {
    steps == [] || (Enabled(w, steps[0]) && Runs(Do(w, steps[0]), steps[1..]))
  }

  function Final(w: World, steps: seq<Step>): World
    requires Runs(w, steps)
    decreases |steps|
  {
    if steps == [] then w else Final(Do(w, steps[0]), steps[1..])
  }

  // ---------------------------------------------------------------------------------
  // The invariant.

  predicate ThreadOk(w: World, t: ThreadId) {
    t in w.threads ==> Disciplined(w.threads[t].held.Keys, w.threads[t].todo)
  }

  /** Whoever queues for a lock is about to take it, and queues once. */
  predicate GoodQueue(threads: map<ThreadId, Thread>, q: seq<ThreadId>, l: Lock) {
    && (forall i | 0 <= i < |q| :: Wants(threads, q[i], l))
    && (forall i, j | 0 <= i < j < |q| :: q[i] != q[j])
  }

  predicate QueueOk(w: World, l: Lock) {
    GoodQueue(w.threads, Queue(w, l), l)
  }

  /** An exclusive holder is the only holder. */
  predicate Exclusion(w: World, l: Lock, t: ThreadId, u: ThreadId) {
    Holds(w, t, l) && Holds(w, u, l) && t != u ==> w.threads[t].held[l].Shared?
  }

  ghost predicate Inv(w: World) {
    && (forall t :: ThreadOk(w, t))
    && (forall l :: QueueOk(w, l))
    && (forall l, t, u :: Exclusion(w, l, t, u))
  }

  lemma NextKeepsDiscipline(held: set<Lock>, todo: seq<Action>)
    requires Disciplined(held, todo) && todo != []
    ensures match todo[0]
      case Release(l) => l in held && Disciplined(held - {l}, todo[1..])
      case a => a.lock !in held && Disciplined(held + {a.lock}, todo[1..]) && forall h | h in held :: Before(h, a.lock)
  {}

  lemma TakeKeeps(w: World, t: ThreadId, l: Lock, queues: map<Lock, seq<ThreadId>>)
    requires Inv(w) && t in w.threads && w.threads[t].todo != [] && !w.threads[t].todo[0].Release?
    requires w.threads[t].todo[0].lock == l && Compatible(w, l, w.threads[t].todo[0].mode)
    ensures var w' := World(w.threads[t := Taken(w.threads[t])], queues);
      (forall u :: ThreadOk(w', u)) && (forall k, u, v :: Exclusion(w', k, u, v))
  {
    var w' := World(w.threads[t := Taken(w.threads[t])], queues);
    assert ThreadOk(w, t);
    NextKeepsDiscipline(w.threads[t].held.Keys, w.threads[t].todo);
    assert Taken(w.threads[t]).held.Keys == w.threads[t].held.Keys + {l};
    forall u ensures ThreadOk(w', u) { assert ThreadOk(w, u); }
    forall k, u, v ensures Exclusion(w', k, u, v) {
      assert Exclusion(w, k, u, v);
      assert u in w.threads ==> !Conflicts(w, u, l, w.threads[t].todo[0].mode);
      assert v in w.threads ==> !Conflicts(w, v, l, w.threads[t].todo[0].mode);
    }
  }

  lemma OthersStayQueued(threads: map<ThreadId, Thread>, q: seq<ThreadId>, l: Lock, t: ThreadId, th: Thread)
    requires GoodQueue(threads, q, l) && t !in q
    ensures GoodQueue(threads[t := th], q, l)
  {}

  lemma GrantKeeps(w: World, l: Lock)
    requires Inv(w) && Enabled(w, Grant(l))
    ensures Inv(Do(w, Grant(l)))
  {
    var w', t := Do(w, Grant(l)), Queue(w, l)[0];
    TakeKeeps(w, t, l, w'.queues);
    forall k ensures QueueOk(w', k) {
      assert QueueOk(w, k) && QueueOk(w, l);
      var q := if k == l then Queue(w, l)[1..] else Queue(w, k);
      assert Queue(w', k) == q;
      OthersStayQueued(w.threads, q, k, t, Taken(w.threads[t]));
    }
  }

  lemma AskKeeps(w: World, t: ThreadId)
    requires Inv(w) && Enabled(w, Ask(t))
    ensures Inv(Do(w, Ask(t)))
  {
    var w', l := Do(w, Ask(t)), w.threads[t].todo[0].lock;
    forall u ensures ThreadOk(w', u) { assert ThreadOk(w, u); }
    forall k ensures QueueOk(w', k) {
      assert QueueOk(w, k);
      assert Queue(w', k) == if k == l then Queue(w, l) + [t] else Queue(w, k);
    }
    forall k, u, v ensures Exclusion(w', k, u, v) { assert Exclusion(w, k, u, v); }
  }

  /** A thread outside every queue changes its plan, and holds no more than before. */
  lemma PlanKeeps(w: World, t: ThreadId, th: Thread)
    requires Inv(w) && t in w.threads && forall l :: t !in Queue(w, l)
    requires th.held.Keys <= w.threads[t].held.Keys && forall l | l in th.held :: th.held[l] == w.threads[t].held[l]
    requires Disciplined(th.held.Keys, th.todo)
    ensures Inv(w.(threads := w.threads[t := th]))
  {
    var w' := w.(threads := w.threads[t := th]);
    forall u ensures ThreadOk(w', u) { assert ThreadOk(w, u); }
    forall k ensures QueueOk(w', k) {
      assert QueueOk(w, k) && Queue(w', k) == Queue(w, k);
      OthersStayQueued(w.threads, Queue(w, k), k, t, th);
    }
    forall k, u, v ensures Exclusion(w', k, u, v) { assert Exclusion(w, k, u, v); }
  }

  lemma NotQueued(w: World, t: ThreadId, l: Lock)
    requires Inv(w) && t in w.threads && w.threads[t].todo != [] && !w.threads[t].todo[0].Acquire?
    ensures t !in Queue(w, l)
  {
    assert QueueOk(w, l);
  }

  lemma TryKeeps(w: World, t: ThreadId, otherwise: seq<Action>)
    requires Inv(w) && Enabled(w, Try(t, otherwise))
    ensures Inv(Do(w, Try(t, otherwise)))
  {
    var th := w.threads[t];
    var l, w' := th.todo[0].lock, Do(w, Try(t, otherwise));
    forall k ensures t !in Queue(w, k) { NotQueued(w, t, k); }
    if Available(w, l, th.todo[0].mode) {
      TakeKeeps(w, t, l, w.queues);
      forall k ensures QueueOk(w', k) {
        assert QueueOk(w, k) && Queue(w', k) == Queue(w, k);
        OthersStayQueued(w.threads, Queue(w, k), k, t, Taken(th));
      }
    } else {
      PlanKeeps(w, t, th.(todo := otherwise));
    }
  }

  lemma LetGoKeeps(w: World, t: ThreadId)
    requires Inv(w) && Enabled(w, LetGo(t))
    ensures Inv(Do(w, LetGo(t)))
  {
    var th := w.threads[t];
    assert ThreadOk(w, t);
    NextKeepsDiscipline(th.held.Keys, th.todo);
    forall k ensures t !in Queue(w, k) { NotQueued(w, t, k); }
    var th' := Thread(th.held - {th.todo[0].lock}, th.todo[1..]);
    assert th'.held.Keys == th.held.Keys - {th.todo[0].lock};
    PlanKeeps(w, t, th');
  }

  lemma {:induction false} WithoutIsSub(q: seq<ThreadId>, t: ThreadId)
    ensures t !in Without(q, t)
    ensures forall x | x in Without(q, t) :: x in q
    ensures (forall i, j | 0 <= i < j < |q| :: q[i] != q[j]) ==>
      (forall i, j | 0 <= i < j < |Without(q, t)| :: Without(q, t)[i] != Without(q, t)[j])
  {
    if q != [] {
      WithoutIsSub(q[1..], t);
      assert Without(q, t) == (if q[0] == t then [] else [q[0]]) + Without(q[1..], t);
      forall i | 0 <= i < |Without(q[1..], t)| ensures Without(q[1..], t)[i] in q[1..] {}
    }
  }

  lemma DequeueKeeps(w: World, t: ThreadId)
    requires Inv(w)
    ensures Inv(w.(queues := Dequeued(w, t))) && forall l :: t !in Queue(w.(queues := Dequeued(w, t)), l)
  {
    var w' := w.(queues := Dequeued(w, t));
    forall u ensures ThreadOk(w', u) { assert ThreadOk(w, u); }
    forall k ensures QueueOk(w', k) && t !in Queue(w', k) {
      assert QueueOk(w, k);
      WithoutIsSub(Queue(w, k), t);
      assert Queue(w', k) == Without(Queue(w, k), t);
      forall i | 0 <= i < |Queue(w', k)| ensures Wants(w'.threads, Queue(w', k)[i], k) {
        assert Queue(w', k)[i] in Queue(w, k);
      }
    }
    forall k, u, v ensures Exclusion(w', k, u, v) { assert Exclusion(w, k, u, v); }
  }

  lemma AbandonKeeps(w: World, t: ThreadId, keep: set<Lock>, rest: seq<Action>)
    requires Inv(w) && Enabled(w, Abandon(t, keep, rest))
    ensures Inv(Do(w, Abandon(t, keep, rest)))
  {
    DequeueKeeps(w, t);
    var held := map l | l in w.threads[t].held && l in keep :: w.threads[t].held[l];
    assert held.Keys == keep;
    PlanKeeps(w.(queues := Dequeued(w, t)), t, Thread(held, rest));
  }

  lemma SpawnKeeps(w: World, t: ThreadId, program: seq<Action>)
    requires Inv(w) && Enabled(w, Spawn(t, program))
    ensures Inv(Do(w, Spawn(t, program)))
  {
    var w' := Do(w, Spawn(t, program));
    assert w'.threads[t].held.Keys == {};
    forall u ensures ThreadOk(w', u) { assert ThreadOk(w, u); }
    forall k ensures QueueOk(w', k) { assert QueueOk(w, k) && Queue(w', k) == Queue(w, k); }
    forall k, u, v ensures Exclusion(w', k, u, v) { assert Exclusion(w, k, u, v); }
  }

  lemma StepKeeps(w: World, step: Step)
    requires Inv(w) && Enabled(w, step)
    ensures Inv(Do(w, step))
  {
    match step
    case Spawn(t, program) => SpawnKeeps(w, t, program);
    case Ask(t) => AskKeeps(w, t);
    case Grant(l) => GrantKeeps(w, l);
    case Try(t, otherwise) => TryKeeps(w, t, otherwise);
    case LetGo(t) => LetGoKeeps(w, t);
    case Abandon(t, keep, rest) => AbandonKeeps(w, t, keep, rest);
  }

  lemma {:induction false} RunKeeps(w: World, steps: seq<Step>)
    requires Inv(w) && Runs(w, steps)
    ensures Inv(Final(w, steps))
    decreases |steps|
  {
    if steps != [] {
      StepKeeps(w, steps[0]);
      RunKeeps(Do(w, steps[0]), steps[1..]);
    }
  }

  // ---------------------------------------------------------------------------------
  // No deadlock.

  /** `u` stands in the way of `t`: it holds the lock `t` waits for, or queues before it. */
  predicate Blocks(w: World, t: ThreadId, u: ThreadId) {
    Waits(w, t) &&
    var l := w.threads[t].todo[0].lock;
    Holds(w, u, l) || (exists i, j :: 0 <= i < j < |Queue(w, l)| && Queue(w, l)[i] == u && Queue(w, l)[j] == t)
  }

  predicate Chain(w: World, path: seq<ThreadId>) {
    forall i | 0 <= i < |path| - 1 :: Blocks(w, path[i], path[i + 1])
  }

  function WaitedFor(w: World, t: ThreadId): Lock
    requires Waits(w, t)
  {
    w.threads[t].todo[0].lock
  }

  /** Along a wait-for edge between two waiting threads the lock grows, or it is the same and
      the place in its queue gets better. */
  predicate Closer(w: World, t: ThreadId, u: ThreadId)
    requires Waits(w, t) && Waits(w, u)
  {
    Before(WaitedFor(w, t), WaitedFor(w, u)) ||
    (WaitedFor(w, t) == WaitedFor(w, u) &&
      exists i, j :: 0 <= i < j < |Queue(w, WaitedFor(w, t))| && Queue(w, WaitedFor(w, t))[i] == u && Queue(w, WaitedFor(w, t))[j] == t)
  }

  lemma EdgeIsCloser(w: World, t: ThreadId, u: ThreadId)
    requires Inv(w) && Blocks(w, t, u) && Waits(w, u)
    ensures Closer(w, t, u)
  {
    var l := WaitedFor(w, t);
    if Holds(w, u, l) {
      assert ThreadOk(w, u);
      NextKeepsDiscipline(w.threads[u].held.Keys, w.threads[u].todo);
    } else {
      var i, j :| 0 <= i < j < |Queue(w, l)| && Queue(w, l)[i] == u && Queue(w, l)[j] == t;
      assert QueueOk(w, l);
    }
  }

  lemma CloserComposes(w: World, t: ThreadId, u: ThreadId, v: ThreadId)
    requires Inv(w) && Waits(w, t) && Waits(w, u) && Waits(w, v) && Closer(w, t, u) && Closer(w, u, v)
    ensures Closer(w, t, v)
  {
    var l := WaitedFor(w, t);
    if l == WaitedFor(w, u) == WaitedFor(w, v) {
      assert QueueOk(w, l);
      var i, j :| 0 <= i < j < |Queue(w, l)| && Queue(w, l)[i] == u && Queue(w, l)[j] == t;
      var h, k :| 0 <= h < k < |Queue(w, l)| && Queue(w, l)[h] == v && Queue(w, l)[k] == u;
      assert k == i;
    }
  }

  lemma NotCloserToItself(w: World, t: ThreadId)
    requires Inv(w) && Waits(w, t)
    ensures !Closer(w, t, t)
  {
    assert QueueOk(w, WaitedFor(w, t));
  }

  lemma {:induction false} ChainIsCloser(w: World, path: seq<ThreadId>)
    requires Inv(w) && |path| >= 2 && Chain(w, path) && Waits(w, path[|path| - 1])
    ensures Waits(w, path[0]) && Closer(w, path[0], path[|path| - 1])
    decreases |path|
  {
    assert Blocks(w, path[0], path[1]);
    if |path| == 2 {
      EdgeIsCloser(w, path[0], path[1]);
    } else {
      forall i | 0 <= i < |path[1..]| - 1 ensures Blocks(w, path[1..][i], path[1..][i + 1]) {
        assert Blocks(w, path[i + 1], path[i + 2]);
      }
      ChainIsCloser(w, path[1..]);
      EdgeIsCloser(w, path[0], path[1]);
      CloserComposes(w, path[0], path[1], path[|path| - 1]);
    }
  }

  /** No reachable wait-for graph has a cycle. */
  lemma NoWaitCycle(steps: seq<Step>, path: seq<ThreadId>)
    requires Runs(World(map[], map[]), steps) && |path| >= 2
    ensures var w := Final(World(map[], map[]), steps); !(Chain(w, path) && path[0] == path[|path| - 1])
  {
    RunKeeps(World(map[], map[]), steps);
    var w := Final(World(map[], map[]), steps);
    if Chain(w, path) && path[0] == path[|path| - 1] {
      assert Blocks(w, path[0], path[1]);
      NotCloserToItself(w, path[0]);
      ChainIsCloser(w, path);
    }
  }

  predicate Moves(step: Step) {
    step.Ask? || step.Grant? || step.Try? || step.LetGo?
  }

  predicate QueuedBeyond(w: World, t: ThreadId, l: Lock) {
    Waits(w, t) && Before(l, WaitedFor(w, t))
  }

  ghost function Beyond(w: World, l: Lock): set<ThreadId> {
    set t | t in w.threads && QueuedBeyond(w, t, l)
  }

  /** From any contended lock, climbing to what its holder waits for ends at a step. */
  lemma {:induction false} Climb(w: World, l: Lock) returns (step: Step)
    requires Inv(w) && Queue(w, l) != []
    ensures Moves(step) && Enabled(w, step)
    decreases |Beyond(w, l)|, 1
  {
    var t := Queue(w, l)[0];
    assert QueueOk(w, l);
    if Compatible(w, l, w.threads[t].todo[0].mode) { return Grant(l); }
    var u :| u in w.threads && Conflicts(w, u, l, w.threads[t].todo[0].mode);
    assert ThreadOk(w, u);
    step := Advance(w, u, l);
  }

  /** A thread that holds a lock can move, or waits further up. */
  lemma {:induction false} Advance(w: World, u: ThreadId, l: Lock) returns (step: Step)
    requires Inv(w) && u in w.threads && w.threads[u].todo != []
    requires Waits(w, u) ==> Before(l, WaitedFor(w, u))
    ensures Moves(step) && Enabled(w, step)
    decreases |Beyond(w, l)|, 0
  {
    match w.threads[u].todo[0]
    case Release(_) => return LetGo(u);
    case TryAcquire(_, _) => return Try(u, GiveBack(w.threads[u].held.Keys));
    case Acquire(k, _) =>
      if !Waits(w, u) { return Ask(u); }
      assert u in Beyond(w, l) && u !in Beyond(w, k);
      assert Beyond(w, k) <= Beyond(w, l);
      FewerBeyond(Beyond(w, k), Beyond(w, l), u);
      step := Climb(w, k);
  }

  lemma FewerBeyond(a: set<ThreadId>, b: set<ThreadId>, u: ThreadId)
    requires a <= b && u in b && u !in a
    ensures |a| < |b|
  {
    assert b == a + (b - a) && u in b - a;
  }

  /** Progress: while some operation is unfinished, some operation can move. */
  lemma SomeoneCanMove(steps: seq<Step>, t: ThreadId) returns (step: Step)
    requires Runs(World(map[], map[]), steps)
    requires var w := Final(World(map[], map[]), steps); t in w.threads && w.threads[t].todo != []
    ensures Moves(step) && Enabled(Final(World(map[], map[]), steps), step)
  {
    RunKeeps(World(map[], map[]), steps);
    var w := Final(World(map[], map[]), steps);
    if Waits(w, t) {
      step := Climb(w, WaitedFor(w, t));
    } else {
      match w.threads[t].todo[0]
      case Release(_) => step := LetGo(t);
      case TryAcquire(_, _) => step := Try(t, GiveBack(w.threads[t].held.Keys));
      case Acquire(_, _) => step := Ask(t);
    }
  }

  ghost function GiveBack(held: set<Lock>): (r: seq<Action>)
    ensures Disciplined(held, r)
  {
    if held == {} then [] else
      var l :| l in held;
      [Release(l)] + GiveBack(held - {l})
  }

  /** Mutual exclusion, whatever has been cancelled: while a worker still holds the gate or
      a class lock exclusively, no one else holds it. */
  lemma ExclusiveMeansAlone(steps: seq<Step>, l: Lock, t: ThreadId, u: ThreadId)
    requires Runs(World(map[], map[]), steps)
    ensures var w := Final(World(map[], map[]), steps);
      Holds(w, t, l) && w.threads[t].held[l].Exclusive? && Holds(w, u, l) ==> t == u
  {
    RunKeeps(World(map[], map[]), steps);
    assert Exclusion(Final(World(map[], map[]), steps), l, t, u);
  }

  // ---------------------------------------------------------------------------------
  // The queues are fair.

  /** Whoever is in the queue at all is behind `t`. */
  predicate Behind(q: seq<ThreadId>, t: ThreadId, u: ThreadId) {
    t in q && u != t && forall i, j | 0 <= i < |q| && 0 <= j < |q| && q[i] == u && q[j] == t :: j < i
  }

  /** `t` waits for the lock at every moment of the run. */
  predicate WaitsThroughout(w: World, steps: seq<Step>, l: Lock, t: ThreadId)
    requires Runs(w, steps)
    decreases |steps|
  {
    t in Queue(w, l) && (steps == [] || WaitsThroughout(Do(w, steps[0]), steps[1..], l, t))
  }

  lemma {:induction false} WithoutKeepsOrder(q: seq<ThreadId>, x: ThreadId, t: ThreadId, u: ThreadId)
    requires Behind(q, t, u) && x != t && forall i, j | 0 <= i < j < |q| :: q[i] != q[j]
    ensures Behind(Without(q, x), t, u)
  {
    WithoutIsSub(q, x);
    if q[0] == t {
      var r := Without(q, x);
      assert r == [t] + Without(q[1..], x) && r[0] == t;
      forall i, j | 0 <= i < |r| && 0 <= j < |r| && r[i] == u && r[j] == t ensures j < i {
        assert j == 0;
      }
    } else {
      assert q[0] != u;
      assert Behind(q[1..], t, u);
      WithoutKeepsOrder(q[1..], x, t, u);
    }
  }

  lemma StepOvertakesNothing(w: World, step: Step, l: Lock, t: ThreadId, u: ThreadId)
    requires Inv(w) && Enabled(w, step) && Behind(Queue(w, l), t, u) && !Holds(w, u, l) && t in Queue(Do(w, step), l)
    ensures Behind(Queue(Do(w, step), l), t, u) && !Holds(Do(w, step), u, l)
  {
    assert QueueOk(w, l);
    match step
    case Grant(k) => if k == l { assert Queue(w, l)[0] != u; }
    case Abandon(x, keep, rest) => AbandonOvertakesNothing(w, x, keep, rest, l, t, u);
    case _ =>
  }

  lemma AbandonOvertakesNothing(w: World, x: ThreadId, keep: set<Lock>, rest: seq<Action>, l: Lock, t: ThreadId, u: ThreadId)
    requires Inv(w) && Enabled(w, Abandon(x, keep, rest)) && Behind(Queue(w, l), t, u) && !Holds(w, u, l)
    requires t in Queue(Do(w, Abandon(x, keep, rest)), l)
    ensures var w' := Do(w, Abandon(x, keep, rest)); Behind(Queue(w', l), t, u) && !Holds(w', u, l)
  {
    assert QueueOk(w, l) && Queue(Do(w, Abandon(x, keep, rest)), l) == Without(Queue(w, l), x);
    WithoutIsSub(Queue(w, l), x);
    WithoutKeepsOrder(Queue(w, l), x, t, u);
  }

  /** First come, first served: while one operation waits for a lock, no operation that was not
      before it in the queue gets that lock, a waiting writer of the gate not overtaken by readers
      either. */
  lemma {:induction false} NobodyOvertakes(w: World, steps: seq<Step>, l: Lock, t: ThreadId, u: ThreadId)
    requires Inv(w) && Runs(w, steps) && WaitsThroughout(w, steps, l, t)
    requires Behind(Queue(w, l), t, u) && !Holds(w, u, l)
    ensures !Holds(Final(w, steps), u, l)
    decreases |steps|
  {
    if steps != [] {
      StepKeeps(w, steps[0]);
      StepOvertakesNothing(w, steps[0], l, t, u);
      NobodyOvertakes(Do(w, steps[0]), steps[1..], l, t, u);
    }
  }
}
