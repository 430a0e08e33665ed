/**
 * The locks of the asynchronous provider. Every operation is a sequence of critical sections, each a script of
 * acquisitions and releases; the scripts of any number of threads interleave in any way. Scripts take locks in
 * the order provider, queue, token, budget, and take a waker registry only with nothing held; so the threads
 * never block each other in a cycle.
 */
module LockOrder {
  import opened Prelude

  /** `WakerLock(Some(i))` guards the wakers of queue `i`, `WakerLock(None)` those of the provider. */
  datatype Lock = BusLock | QueueLock(queue: nat) | TokenLock(token: nat) | BudgetLock | WakerLock(queues: Option<nat>)

  datatype Act = Acquire(lock: Lock) | Unlock(lock: Lock)

  function Rank(l: Lock): (r: nat)
    ensures r <= 4
  {
    match l
    case BusLock => 0
    case QueueLock(_) => 1
    case TokenLock(_) => 2
    case BudgetLock => 3
    case WakerLock(_) => 4
  }

  /** `l` may be taken while `held` are held. */
  predicate Above(l: Lock, held: set<Lock>) {
    (forall m | m in held :: Rank(m) < Rank(l)) && (l.WakerLock? ==> held == {})
  }

  /** The script takes locks in order, releases what it holds, and ends with `goal` held. */
  predicate Ordered(script: seq<Act>, held: set<Lock>, goal: set<Lock>) {
    if script == [] then held == goal
    else match script[0]
         case Acquire(l) => l !in held && Above(l, held) && Ordered(script[1..], held + {l}, goal)
         case Unlock(l) => l in held && Ordered(script[1..], held - {l}, goal)
  }

  // ----- the operations -----

  function Under(l: Lock, body: seq<Act>): (r: seq<Act>) {
    [Acquire(l)] + body + [Unlock(l)]
  }

  /** Visits queues one after the other; the flag says whether the budget is locked under the queue's lock. */
  function Visits(queues: seq<(nat, bool)>): (r: seq<Act>) {
    if queues == [] then [] else Visit(queues[0].0, queues[0].1) + Visits(queues[1..])
  }

  function Visit(i: nat, budget: bool): (r: seq<Act>) {
    Under(QueueLock(i), if budget then Under(BudgetLock, []) else [])
  }

  /** A critical section entered with nothing held. */
  datatype Section =
    | InRegistry(wakers: Option<nat>)
    | InBus(visited: seq<(nat, bool)>)
    | InQueue(queue: nat, budget: bool)
    | InToken(queue: nat, token: nat, budget: bool)
    | InBudget

  function Locks(c: Section): (r: seq<Act>) {
    match c
    case InRegistry(k) => Under(WakerLock(k), [])
    case InBus(visited) => Under(BusLock, Visits(visited))
    case InQueue(i, budget) => Visit(i, budget)
    case InToken(i, h, budget) => Under(QueueLock(i), Under(TokenLock(h), if budget then Under(BudgetLock, []) else []))
    case InBudget => Under(BudgetLock, [])
  }

  datatype Operation =
    | Subscribe
    | Publish(queues: seq<(nat, bool)>)
    | TryReceive(queue: nat)
    | PollReceive(queue: nat, updates: bool, ends: bool)
    | DropReceive(queue: nat)
    | Settle(queue: nat, token: nat, releases: bool)
    | RefuseSettle(queue: nat, token: nat)
    | CloseMailbox(queue: nat)
    | CloseAdmission
    | PollShutdown(looked: seq<nat>, updates: bool)
    | DropShutdown
    | FinishShutdown(mailboxes: seq<nat>)
    | RepeatShutdown
    | CapacitySnapshot

  /** A publish reserves in each queue of its snapshot and notifies those that admitted. */
  function Admissions(queues: seq<(nat, bool)>): (r: seq<Section>) {
    if queues == [] then []
    else [InQueue(queues[0].0, true)] + (if queues[0].1 then [InRegistry(Some(queues[0].0))] else []) + Admissions(queues[1..])
  }

  function Notifications(queues: seq<nat>): (r: seq<Section>) {
    if queues == [] then [] else [InRegistry(Some(queues[0]))] + Notifications(queues[1..])
  }

  function Each(queues: seq<nat>, budget: bool): (r: seq<(nat, bool)>) {
    seq(|queues|, n requires 0 <= n < |queues| => (queues[n], budget))
  }

  /**
   * The critical sections of an operation, in the order it enters them. A refused publish has no queues; a poll
   * that keeps its waker locks the registry once, one that changes it twice; a registration that outlives its
   * poll is removed when its future is dropped.
   */
  function Sections(o: Operation): (r: seq<Section>) {
    match o
    case Subscribe => [InBus([])]
    case Publish(queues) => [InBus([])] + Admissions(queues) + if queues == [] then [] else [InRegistry(None)]
    case TryReceive(i) => [InQueue(i, false)]
    case PollReceive(i, updates, ends) =>
      [InRegistry(Some(i))] + (if updates then [InRegistry(Some(i))] else []) + [InQueue(i, false)]
      + if ends then [InRegistry(Some(i))] else []
    case DropReceive(i) => [InRegistry(Some(i))]
    case Settle(i, h, releases) => [InToken(i, h, releases), InRegistry(Some(i)), InRegistry(None)]
    case RefuseSettle(i, h) => [InToken(i, h, false)]
    case CloseMailbox(i) => [InBus([(i, true)]), InRegistry(Some(i)), InRegistry(None)]
    case CloseAdmission => [InBus([])]
    case PollShutdown(looked, updates) =>
      [InRegistry(None), InBus(Each(looked, false))] + if updates then [InRegistry(None)] else []
    case DropShutdown => [InRegistry(None)]
    case FinishShutdown(mailboxes) => [InBus(Each(mailboxes, true))] + Notifications(mailboxes) + [InRegistry(None)]
    case RepeatShutdown => [InBus([])]
    case CapacitySnapshot => [InBudget]
  }

  function Script(sections: seq<Section>): (r: seq<Act>) {
    if sections == [] then [] else Locks(sections[0]) + Script(sections[1..])
  }

  /** Whatever a thread does one after the other. */
  function Scripts(ops: seq<Operation>): (r: seq<Act>) {
    if ops == [] then [] else Script(Sections(ops[0])) + Scripts(ops[1..])
  }

  lemma {:induction false} OrderedConcat(a: seq<Act>, b: seq<Act>, held: set<Lock>, middle: set<Lock>, goal: set<Lock>)
    requires Ordered(a, held, middle) && Ordered(b, middle, goal)
    ensures Ordered(a + b, held, goal)
  {
    if a == [] {
      assert a + b == b;
    } else {
      assert (a + b)[1..] == a[1..] + b;
      match a[0] {
        case Acquire(l) => OrderedConcat(a[1..], b, held + {l}, middle, goal);
        case Unlock(l) => OrderedConcat(a[1..], b, held - {l}, middle, goal);
      }
    }
  }

  lemma OrderedUnder(l: Lock, body: seq<Act>, held: set<Lock>)
    requires l !in held && Above(l, held) && Ordered(body, held + {l}, held + {l})
    ensures Ordered(Under(l, body), held, held)
  {
    assert held + {l} - {l} == held;
    assert [Unlock(l)][1..] == [];
    assert Ordered([Unlock(l)], held + {l}, held);
    OrderedConcat(body, [Unlock(l)], held + {l}, held + {l}, held);
    assert Under(l, body)[1..] == body + [Unlock(l)];
  }

  lemma VisitOrdered(i: nat, budget: bool, held: set<Lock>)
    requires held <= {BusLock}
    ensures Ordered(Visit(i, budget), held, held)
  {
    OrderedUnder(BudgetLock, [], held + {QueueLock(i)});
    OrderedUnder(QueueLock(i), if budget then Under(BudgetLock, []) else [], held);
  }

  lemma {:induction false} VisitsOrdered(queues: seq<(nat, bool)>)
    ensures Ordered(Visits(queues), {BusLock}, {BusLock})
  {
    if queues != [] {
      var (i, budget) := queues[0];
      VisitOrdered(i, budget, {BusLock});
      VisitsOrdered(queues[1..]);
      OrderedConcat(Visit(i, budget), Visits(queues[1..]), {BusLock}, {BusLock}, {BusLock});
    }
  }

  lemma TokenOrdered(i: nat, h: nat, budget: bool)
    ensures Ordered(Locks(InToken(i, h, budget)), {}, {})
  {
    var held := {QueueLock(i)};
    OrderedUnder(BudgetLock, [], held + {TokenLock(h)});
    OrderedUnder(TokenLock(h), if budget then Under(BudgetLock, []) else [], held);
    assert {} + {QueueLock(i)} == held;
    OrderedUnder(QueueLock(i), Under(TokenLock(h), if budget then Under(BudgetLock, []) else []), {});
  }

  /** Every critical section takes its locks in order and leaves none behind. */
  lemma SectionOrdered(c: Section)
    ensures Ordered(Locks(c), {}, {})
  {
    match c {
      case InRegistry(_) =>
      case InBus(visited) =>
        VisitsOrdered(visited);
        assert {} + {BusLock} == {BusLock};
        OrderedUnder(BusLock, Visits(visited), {});
      case InQueue(i, budget) => VisitOrdered(i, budget, {});
      case InToken(i, h, budget) => TokenOrdered(i, h, budget);
      case InBudget =>
    }
  }

  lemma {:induction false} ScriptOrdered(sections: seq<Section>)
    ensures Ordered(Script(sections), {}, {})
  {
    if sections != [] {
      SectionOrdered(sections[0]);
      ScriptOrdered(sections[1..]);
      OrderedConcat(Locks(sections[0]), Script(sections[1..]), {}, {}, {});
    }
  }

  lemma {:induction false} ScriptsOrdered(ops: seq<Operation>)
    ensures Ordered(Scripts(ops), {}, {})
  {
    if ops != [] {
      ScriptOrdered(Sections(ops[0]));
      ScriptsOrdered(ops[1..]);
      OrderedConcat(Script(Sections(ops[0])), Scripts(ops[1..]), {}, {}, {});
    }
  }

  // ----- interleavings -----

  /** What a thread has still to do, and the locks it holds. */
  datatype Thread = Thread(rest: seq<Act>, held: set<Lock>)

  predicate Blocked(threads: seq<Thread>, t: nat)
    requires t < |threads|
  {
    && threads[t].rest != [] && threads[t].rest[0].Acquire?
    && exists u | 0 <= u < |threads| :: u != t && threads[t].rest[0].lock in threads[u].held
  }

  /** Thread `t` takes its next action; a blocked thread waits. */
  function Next(threads: seq<Thread>, t: nat): (r: seq<Thread>) {
    if t >= |threads| || threads[t].rest == [] || Blocked(threads, t) then threads
    else
      var thread := threads[t];
      threads[t := Thread(thread.rest[1..], match thread.rest[0]
                                            case Acquire(l) => thread.held + {l}
                                            case Unlock(l) => thread.held - {l})]
  }

  function Run(threads: seq<Thread>, schedule: seq<nat>): (r: seq<Thread>) {
    if schedule == [] then threads else Next(Run(threads, schedule[..|schedule| - 1]), schedule[|schedule| - 1])
  }

  function Start(programs: seq<seq<Operation>>): (threads: seq<Thread>)
    ensures |threads| == |programs|
  {
    seq(|programs|, t requires 0 <= t < |programs| => Thread(Scripts(programs[t]), {}))
  }

  /** Every rest of a script is in order, and no lock is held twice. */
  predicate LocksOk(threads: seq<Thread>) {
    && (forall t | 0 <= t < |threads| :: Ordered(threads[t].rest, threads[t].held, {}))
    && (forall t, u | 0 <= t < u < |threads| :: threads[t].held !! threads[u].held)
  }

  lemma NextOk(threads: seq<Thread>, t: nat)
    requires LocksOk(threads)
    ensures LocksOk(Next(threads, t))
  {
  }

  lemma {:induction false} RunOk(programs: seq<seq<Operation>>, schedule: seq<nat>)
    ensures LocksOk(Run(Start(programs), schedule))
  {
    hide Ordered, Next;
    if schedule == [] {
      forall t | 0 <= t < |programs| ensures Ordered(Scripts(programs[t]), {}, {}) {
        ScriptsOrdered(programs[t]);
      }
    } else {
      RunOk(programs, schedule[..|schedule| - 1]);
      NextOk(Run(Start(programs), schedule[..|schedule| - 1]), schedule[|schedule| - 1]);
    }
  }

  /** How far up the lock order a blocked thread waits. */
  function Waits(thread: Thread): (r: nat)
    ensures r <= 4
  {
    if thread.rest != [] && thread.rest[0].Acquire? then Rank(thread.rest[0].lock) else 4
  }

  /** Following who holds the lock a thread waits for climbs the lock order and so ends at one that can go on. */
  lemma FindUnblocked(threads: seq<Thread>, t: nat) returns (u: nat)
    requires LocksOk(threads) && t < |threads| && threads[t].rest != []
    ensures u < |threads| && threads[u].rest != [] && !Blocked(threads, u)
    decreases 4 - Waits(threads[t])
  {
    if !Blocked(threads, t) {
      u := t;
    } else {
      var l := threads[t].rest[0].lock;
      var v :| 0 <= v < |threads| && v != t && l in threads[v].held;
      assert Ordered(threads[v].rest, threads[v].held, {}) && threads[v].rest != [];
      if Blocked(threads, v) {
        assert Above(threads[v].rest[0].lock, threads[v].held);
        u := FindUnblocked(threads, v);
      } else {
        u := v;
      }
    }
  }

  /**
   * No deadlock: however the operations of any number of threads interleave, as long as one of them is not
   * finished, one of them can take its next action.
   */
  lemma NoDeadlock(programs: seq<seq<Operation>>, schedule: seq<nat>, t: nat)
    requires var threads := Run(Start(programs), schedule); t < |threads| && threads[t].rest != []
    ensures var threads := Run(Start(programs), schedule);
            exists u :: 0 <= u < |threads| && threads[u].rest != [] && !Blocked(threads, u)
  {
    RunOk(programs, schedule);
    var u := FindUnblocked(Run(Start(programs), schedule), t);
  }

  /** The waker registry is only ever locked by a thread that holds nothing else. */
  lemma RegistryIsAlone(programs: seq<seq<Operation>>, schedule: seq<nat>, t: nat)
    requires var threads := Run(Start(programs), schedule); t < |threads| && threads[t].rest != [] && threads[t].rest[0].Acquire?
    ensures var thread := Run(Start(programs), schedule)[t];
            && (thread.rest[0].lock.WakerLock? ==> thread.held == {})
            && forall l | l in thread.held :: !l.WakerLock?
  {
    RunOk(programs, schedule);
    var thread := Run(Start(programs), schedule)[t];
    assert Ordered(thread.rest, thread.held, {});
    assert Above(thread.rest[0].lock, thread.held);
  }
}
