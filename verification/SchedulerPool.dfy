/** The handler pool of the scheduler: what every turn of every actor and worker keeps. */
module SchedulerPool {
  import opened Prelude
  import opened Schedulers

  // ----- jobs -----

  predicate JobsOk(jobs: seq<nat>, submitted: nat, taken: nat) {
    taken + |jobs| == submitted && forall i | 0 <= i < |jobs| :: jobs[i] == taken + i
  }

  predicate TakenOk(takers: seq<nat>, workers: seq<Worker>, finished: set<nat>, j: nat)
    requires j < |takers|
  {
    takers[j] < |workers| && (j in finished || workers[takers[j]] == Running(j))
  }

  predicate RunsOk(takers: seq<nat>, workers: seq<Worker>, finished: set<nat>, w: nat)
    requires w < |workers|
  {
    workers[w].Running? ==> workers[w].job < |takers| && takers[workers[w].job] == w && workers[w].job !in finished
  }

  /** Each job taken is finished, or running at the one worker that took it. */
  predicate TakersOk(takers: seq<nat>, workers: seq<Worker>, finished: set<nat>) {
    && (forall j | 0 <= j < |takers| :: TakenOk(takers, workers, finished, j))
    && (forall w | 0 <= w < |workers| :: RunsOk(takers, workers, finished, w))
    && (forall j | j in finished :: j < |takers|)
  }

  // ----- handles -----

  predicate HoldsWorkers(pc: Actor) {
    pc.Joining? || pc.Starting? || pc.FailNotify? || pc.FailJoining?
  }

  predicate LockOk(actors: seq<Actor>, lock: Option<nat>, handles: set<nat>) {
    && (lock.Some? ==> lock.value < |actors|)
    && (forall t | 0 <= t < |actors| :: HoldsWorkers(actors[t]) <==> lock == Some(t))
    && (forall t | 0 <= t < |actors| && (actors[t].Joining? || actors[t].FailJoining?) :: handles == {})
  }

  /** The handles in the list, or in the hands of the owner of its lock. */
  function Reachable(actors: seq<Actor>, lock: Option<nat>, handles: set<nat>): (r: set<nat>) {
    if lock.None? || lock.value >= |actors| then handles
    else match actors[lock.value]
         case Joining(_, left) => left
         case FailJoining(left) => left
         case _ => handles
  }

  /** Every worker that has not exited can still be joined. */
  predicate HandlesOk(workers: seq<Worker>, reachable: set<nat>) {
    forall w | 0 <= w < |workers| :: workers[w].Exited? || w in reachable
  }

  // ----- sleepers -----

  predicate Awake(workers: seq<Worker>) {
    exists w | 0 <= w < |workers| :: workers[w].Looking? || workers[w].Running?
  }

  predicate OwesOne(actors: seq<Actor>) {
    exists t | 0 <= t < |actors| :: actors[t].Submitting?
  }

  predicate OwesAll(actors: seq<Actor>) {
    exists t | 0 <= t < |actors| :: actors[t].JoinNotify? || actors[t].FailNotify?
  }

  /** Queued work has an awake worker or a notification under way; a stop has a notification for its sleepers. */
  predicate SleepOk(jobs: seq<nat>, workers: seq<Worker>, stopped: bool, actors: seq<Actor>) {
    && (jobs == [] || !AnyLive(workers) || Awake(workers) || OwesOne(actors))
    && (stopped && AnyParked(workers) ==> OwesAll(actors))
  }

  // ----- joins -----

  function NoteOf(pc: Actor): (n: Option<JoinNote>) {
    match pc
    case JoinNotify(note) => Some(note)
    case JoinLock(note) => Some(note)
    case Joining(note, _) => Some(note)
    case _ => None
  }

  /** One of the first `n` workers has not exited yet. */
  predicate StillLive(workers: seq<Worker>, n: nat) {
    exists w | 0 <= w < |workers| && w < n :: !workers[w].Exited?
  }

  /** A worker spawned after the first `n` has not exited yet. */
  predicate LaterLive(workers: seq<Worker>, n: nat) {
    exists w | 0 <= w < |workers| && n <= w :: !workers[w].Exited?
  }

  predicate NoteOk(n: JoinNote, submitted: nat, taken: nat, workers: seq<Worker>, stopped: bool, resets: nat) {
    && n.submitted <= submitted && n.spawned <= |workers| && n.resets <= resets
    && |n.queued| <= n.submitted && n.submitted - |n.queued| <= taken
    && (n.live ==> StillLive(workers, n.spawned) || n.submitted <= taken)
    && (|workers| > n.spawned ==> LaterLive(workers, n.spawned) || n.submitted <= taken)
    && (!n.live && |workers| == n.spawned ==> !AnyLive(workers) && taken == n.submitted - |n.queued|)
    && (resets == n.resets ==> stopped)
  }

  predicate NotesOk(actors: seq<Actor>, submitted: nat, taken: nat, workers: seq<Worker>, stopped: bool, resets: nat) {
    forall t | 0 <= t < |actors| && NoteOf(actors[t]).Some? ::
      NoteOk(NoteOf(actors[t]).value, submitted, taken, workers, stopped, resets)
  }

  predicate PoolOk(s: State) {
    && JobsOk(s.jobs, s.submitted, |s.takers|)
    && TakersOk(s.takers, s.workers, s.finished)
    && LockOk(s.actors, s.workersLock, s.handles)
    && HandlesOk(s.workers, Reachable(s.actors, s.workersLock, s.handles))
    && SleepOk(s.jobs, s.workers, s.stopped, s.actors)
    && NotesOk(s.actors, s.submitted, |s.takers|, s.workers, s.stopped, s.resets)
  }

  // ----- one actor moves -----

  lemma OwedMove(actors: seq<Actor>, t: nat, pc: Actor)
    requires t < |actors|
    ensures pc.Submitting? || (OwesOne(actors) && !actors[t].Submitting?) ==> OwesOne(actors[t := pc])
    ensures pc.JoinNotify? || pc.FailNotify? || (OwesAll(actors) && !actors[t].JoinNotify? && !actors[t].FailNotify?)
            ==> OwesAll(actors[t := pc])
  {
    var actors' := actors[t := pc];
    assert actors'[t] == pc;
    if OwesOne(actors) {
      var u :| 0 <= u < |actors| && actors[u].Submitting?;
      assert u == t || actors'[u].Submitting?;
    }
    if OwesAll(actors) {
      var u :| 0 <= u < |actors| && (actors[u].JoinNotify? || actors[u].FailNotify?);
      assert u == t || actors'[u] == actors[u];
    }
  }

  lemma NotesMove(s: State, t: nat, pc: Actor)
    requires t < |s.actors| && NotesOk(s.actors, s.submitted, |s.takers|, s.workers, s.stopped, s.resets)
    requires NoteOf(pc).Some? ==> NoteOk(NoteOf(pc).value, s.submitted, |s.takers|, s.workers, s.stopped, s.resets)
    ensures NotesOk(s.actors[t := pc], s.submitted, |s.takers|, s.workers, s.stopped, s.resets)
  {
  }

  predicate SamePool(s: State, s': State) {
    && s'.jobs == s.jobs && s'.submitted == s.submitted && s'.takers == s.takers && s'.finished == s.finished
    && s'.workers == s.workers && s'.stopped == s.stopped && s'.resets == s.resets
  }

  /** An actor moves, possibly taking or returning the lock and the handles. */
  lemma ActorMove(s: State, s': State, t: nat)
    requires PoolOk(s) && SamePool(s, s') && t < |s.actors| == |s'.actors| && s'.actors == s.actors[t := s'.actors[t]]
    requires LockOk(s'.actors, s'.workersLock, s'.handles)
    requires HandlesOk(s.workers, Reachable(s'.actors, s'.workersLock, s'.handles))
    requires NoteOf(s'.actors[t]).Some? ==> NoteOf(s'.actors[t]) == NoteOf(s.actors[t])
    requires !s.actors[t].Submitting? && !s.actors[t].JoinNotify? && !s.actors[t].FailNotify?
    ensures PoolOk(s')
  {
  }

  /** A step outside the pool. */
  lemma ElsewhereOk(s: State, s': State, t: nat)
    requires PoolOk(s) && SamePool(s, s') && t < |s.actors| == |s'.actors| && s'.actors == s.actors[t := s'.actors[t]]
    requires s'.handles == s.handles && s'.workersLock == s.workersLock
    requires !HoldsWorkers(s.actors[t]) && !s.actors[t].Submitting? && NoteOf(s.actors[t]).None?
    requires !HoldsWorkers(s'.actors[t]) && !s'.actors[t].Submitting? && NoteOf(s'.actors[t]).None?
    ensures PoolOk(s')
  {
  }

  lemma SubmitOk(s: State, t: nat)
    requires PoolOk(s) && t < |s.actors|
    ensures PoolOk(DoSubmit(s, t))
  {
    hide TakersOk, HandlesOk, StillLive, AnyLive, Awake;
    if s.actors[t].Free? {
      var s' := DoSubmit(s, t);
      OwedMove(s.actors, t, Submitting);
      assert Reachable(s'.actors, s'.workersLock, s'.handles) == Reachable(s.actors, s.workersLock, s.handles);
    }
  }

  // ----- one worker moves -----

  lemma WorkerAwake(workers: seq<Worker>, w: nat, x: Worker)
    requires w < |workers|
    ensures x.Looking? || x.Running? ==> Awake(workers[w := x])
    ensures Awake(workers) && (workers[w].Looking? || workers[w].Running? ==> x.Looking? || x.Running?) ==> Awake(workers[w := x])
    ensures AnyParked(workers[w := x]) ==> x.Parked? || AnyParked(workers)
  {
    var workers' := workers[w := x];
    assert workers'[w] == x;
    if Awake(workers) {
      var v :| 0 <= v < |workers| && (workers[v].Looking? || workers[v].Running?);
      assert v == w || workers'[v] == workers[v];
    }
  }

  lemma WorkerLive(workers: seq<Worker>, w: nat, x: Worker, n: nat)
    requires w < |workers| && !x.Exited? && !workers[w].Exited?
    ensures AnyLive(workers[w := x]) && AnyLive(workers)
    ensures StillLive(workers, n) ==> StillLive(workers[w := x], n)
    ensures LaterLive(workers, n) ==> LaterLive(workers[w := x], n)
  {
    var workers' := workers[w := x];
    assert !workers'[w].Exited? && !workers[w].Exited?;
    if StillLive(workers, n) {
      var v :| 0 <= v < |workers| && v < n && !workers[v].Exited?;
      assert !workers'[v].Exited?;
    }
    if LaterLive(workers, n) {
      var v :| 0 <= v < |workers| && n <= v && !workers[v].Exited?;
      assert !workers'[v].Exited?;
    }
  }

  /** A live worker wakes, sleeps or looks again; joins keep what they know. */
  lemma NotesWorker(s: State, w: nat, x: Worker)
    requires NotesOk(s.actors, s.submitted, |s.takers|, s.workers, s.stopped, s.resets)
    requires w < |s.workers| && !x.Exited? && !s.workers[w].Exited?
    ensures NotesOk(s.actors, s.submitted, |s.takers|, s.workers[w := x], s.stopped, s.resets)
  {
    hide StillLive, LaterLive, AnyLive;
    forall t | 0 <= t < |s.actors| && NoteOf(s.actors[t]).Some?
      ensures NoteOk(NoteOf(s.actors[t]).value, s.submitted, |s.takers|, s.workers[w := x], s.stopped, s.resets)
    {
      WorkerLive(s.workers, w, x, NoteOf(s.actors[t]).value.spawned);
    }
  }

  lemma WakeOk(s: State, w: nat)
    requires PoolOk(s)
    ensures PoolOk(DoWake(s, w))
  {
    hide JobsOk, NotesOk, LockOk, Reachable, AnyLive, Awake, AnyParked, OwesOne, OwesAll;
    if w < |s.workers| && s.workers[w].Parked? {
      WorkerAwake(s.workers, w, Looking);
      NotesWorker(s, w, Looking);
      TakersIdle(s.takers, s.workers, s.finished, w, Looking);
    }
  }

  lemma TakersIdle(takers: seq<nat>, workers: seq<Worker>, finished: set<nat>, w: nat, x: Worker)
    requires TakersOk(takers, workers, finished) && w < |workers| && !workers[w].Running? && !x.Running?
    ensures TakersOk(takers, workers[w := x], finished)
  {
    var workers' := workers[w := x];
    forall j | 0 <= j < |takers| ensures TakenOk(takers, workers', finished, j) {
      assert TakenOk(takers, workers, finished, j);
    }
    forall v | 0 <= v < |workers'| ensures RunsOk(takers, workers', finished, v) {
      assert RunsOk(takers, workers, finished, v);
    }
  }

  lemma FinishJobOk(s: State, w: nat)
    requires PoolOk(s)
    ensures PoolOk(DoFinishJob(s, w))
  {
    hide JobsOk, NotesOk, LockOk, Reachable, AnyLive, Awake, AnyParked, OwesOne, OwesAll;
    if w < |s.workers| && s.workers[w].Running? {
      WorkerAwake(s.workers, w, Looking);
      NotesWorker(s, w, Looking);
      TakersFinish(s.takers, s.workers, s.finished, w);
    }
  }

  lemma TakersFinish(takers: seq<nat>, workers: seq<Worker>, finished: set<nat>, w: nat)
    requires TakersOk(takers, workers, finished) && w < |workers| && workers[w].Running?
    ensures TakersOk(takers, workers[w := Looking], finished + {workers[w].job})
  {
    var workers' := workers[w := Looking];
    var finished' := finished + {workers[w].job};
    assert RunsOk(takers, workers, finished, w);
    forall j | 0 <= j < |takers| ensures TakenOk(takers, workers', finished', j) {
      assert TakenOk(takers, workers, finished, j);
    }
    forall v | 0 <= v < |workers'| ensures RunsOk(takers, workers', finished', v) {
      assert RunsOk(takers, workers, finished, v);
    }
  }

  lemma LookOk(s: State, w: nat)
    requires PoolOk(s)
    ensures PoolOk(DoLook(s, w))
  {
    hide PoolOk;
    if w < |s.workers| && s.workers[w].Looking? {
      if s.jobs != [] {
        TakeOk(s, w);
      } else if s.stopped {
        ExitOk(s, w);
      } else {
        SleepsOk(s, w);
      }
    }
  }

  lemma TakeOk(s: State, w: nat)
    requires PoolOk(s) && w < |s.workers| && s.workers[w].Looking? && s.jobs != []
    ensures PoolOk(DoLook(s, w))
  {
    hide LockOk, Reachable, AnyLive, Awake, AnyParked, OwesOne, OwesAll, TakersOk, NotesOk;
    WorkerAwake(s.workers, w, Running(s.jobs[0]));
    TakersTake(s.takers, s.workers, s.finished, w);
    NotesWorker(s, w, Running(s.jobs[0]));
    NotesTake(s, w, Running(s.jobs[0]));
  }

  lemma NotesTake(s: State, w: nat, x: Worker)
    requires w < |s.workers| && !s.workers[w].Exited?
    requires NotesOk(s.actors, s.submitted, |s.takers|, s.workers, s.stopped, s.resets)
    requires NotesOk(s.actors, s.submitted, |s.takers|, s.workers[w := x], s.stopped, s.resets)
    ensures NotesOk(s.actors, s.submitted, |s.takers| + 1, s.workers[w := x], s.stopped, s.resets)
  {
  }

  lemma TakersTake(takers: seq<nat>, workers: seq<Worker>, finished: set<nat>, w: nat)
    requires TakersOk(takers, workers, finished) && w < |workers| && workers[w].Looking?
    ensures TakersOk(takers + [w], workers[w := Running(|takers|)], finished)
  {
    var workers' := workers[w := Running(|takers|)];
    forall j | 0 <= j < |takers + [w]| ensures TakenOk(takers + [w], workers', finished, j) {
      assert j < |takers| ==> TakenOk(takers, workers, finished, j);
    }
    forall v | 0 <= v < |workers'| ensures RunsOk(takers + [w], workers', finished, v) {
      assert RunsOk(takers, workers, finished, v);
    }
  }

  lemma SleepsOk(s: State, w: nat)
    requires PoolOk(s) && w < |s.workers| && s.workers[w].Looking? && s.jobs == [] && !s.stopped
    ensures PoolOk(DoLook(s, w))
  {
    hide LockOk, Reachable, AnyLive, Awake, AnyParked, OwesOne, OwesAll, TakersOk, NotesOk;
    TakersIdle(s.takers, s.workers, s.finished, w, Parked);
    NotesWorker(s, w, Parked);
  }

  /** A worker exits only when nothing is queued, so every join then knows its jobs were taken. */
  lemma ExitOk(s: State, w: nat)
    requires PoolOk(s) && w < |s.workers| && s.workers[w].Looking? && s.jobs == [] && s.stopped
    ensures PoolOk(DoLook(s, w))
  {
    hide LockOk, Reachable, AnyLive, Awake, AnyParked, OwesOne, OwesAll, TakersOk, NotesOk;
    TakersIdle(s.takers, s.workers, s.finished, w, Exited);
    WorkerAwake(s.workers, w, Exited);
    NotesExit(s, w);
  }

  lemma NotesExit(s: State, w: nat)
    requires w < |s.workers| && s.workers[w].Looking? && s.jobs == [] && JobsOk(s.jobs, s.submitted, |s.takers|)
    requires NotesOk(s.actors, s.submitted, |s.takers|, s.workers, s.stopped, s.resets)
    ensures NotesOk(s.actors, s.submitted, |s.takers|, s.workers[w := Exited], s.stopped, s.resets)
  {
  }

  // ----- notifications -----

  lemma NotifyOneOk(s: State, t: nat, w: nat)
    requires PoolOk(s) && t < |s.actors|
    ensures PoolOk(DoNotifyOne(s, t, w))
  {
    hide PoolOk;
    if s.actors[t].Submitting? {
      if w < |s.workers| && s.workers[w].Parked? {
        WakeOk(s, w);
        SubmitterDone(DoWake(s, w), t);
        WokenAwake(s.workers, w);
      } else if !AnyParked(s.workers) {
        NoneAsleep(s.workers);
        SubmitterDone(s, t);
      }
    }
  }

  lemma WokenAwake(workers: seq<Worker>, w: nat)
    requires w < |workers|
    ensures Awake(workers[w := Looking])
  {
    assert workers[w := Looking][w].Looking?;
  }

  lemma NoneAsleep(workers: seq<Worker>)
    requires !AnyParked(workers)
    ensures AnyLive(workers) ==> Awake(workers)
  {
  }

  lemma SubmitterDone(s: State, t: nat)
    requires PoolOk(s) && t < |s.actors| && s.actors[t].Submitting?
    ensures (AnyLive(s.workers) ==> Awake(s.workers)) ==> PoolOk(Goto(s, t, Free))
  {
  }

  lemma UnparkedIs(workers: seq<Worker>)
    ensures !AnyParked(Unparked(workers))
    ensures AnyLive(Unparked(workers)) <==> AnyLive(workers)
    ensures AnyLive(workers) ==> Awake(Unparked(workers))
    ensures forall n :: StillLive(workers, n) ==> StillLive(Unparked(workers), n)
    ensures forall n: nat :: LaterLive(workers, n) ==> LaterLive(Unparked(workers), n)
  {
    var r := Unparked(workers);
    NoneAsleep(r);
    forall w | 0 <= w < |workers| ensures r[w].Exited? <==> workers[w].Exited? {
    }
    if AnyLive(workers) {
      var w :| 0 <= w < |workers| && !workers[w].Exited?;
      assert !r[w].Exited?;
    }
    forall n | StillLive(workers, n) ensures StillLive(r, n) {
      var w :| 0 <= w < |workers| && w < n && !workers[w].Exited?;
      assert !r[w].Exited?;
    }
    forall n: nat | LaterLive(workers, n) ensures LaterLive(r, n) {
      var w :| 0 <= w < |workers| && n <= w && !workers[w].Exited?;
      assert !r[w].Exited?;
    }
  }

  lemma TakersUnparked(takers: seq<nat>, workers: seq<Worker>, finished: set<nat>)
    requires TakersOk(takers, workers, finished)
    ensures TakersOk(takers, Unparked(workers), finished)
  {
    forall j | 0 <= j < |takers| ensures TakenOk(takers, Unparked(workers), finished, j) {
      assert TakenOk(takers, workers, finished, j);
    }
    forall w | 0 <= w < |workers| ensures RunsOk(takers, Unparked(workers), finished, w) {
      assert RunsOk(takers, workers, finished, w);
    }
  }

  lemma NotesUnparked(s: State)
    requires NotesOk(s.actors, s.submitted, |s.takers|, s.workers, s.stopped, s.resets)
    ensures NotesOk(s.actors, s.submitted, |s.takers|, Unparked(s.workers), s.stopped, s.resets)
  {
    hide Unparked, AnyLive, StillLive, LaterLive;
    UnparkedIs(s.workers);
    forall t | 0 <= t < |s.actors| && NoteOf(s.actors[t]).Some?
      ensures NoteOk(NoteOf(s.actors[t]).value, s.submitted, |s.takers|, Unparked(s.workers), s.stopped, s.resets)
    {
      assert NoteOk(NoteOf(s.actors[t]).value, s.submitted, |s.takers|, s.workers, s.stopped, s.resets);
    }
  }

  /** Waking every sleeper settles all debts to them. */
  lemma UnparkOk(s: State)
    requires PoolOk(s)
    ensures PoolOk(s.(workers := Unparked(s.workers)))
  {
    hide JobsOk, TakersOk, LockOk, NotesOk, Reachable, AnyLive, Awake, AnyParked, OwesOne, OwesAll;
    UnparkedIs(s.workers);
    UnparkedSleep(s.jobs, s.workers, s.stopped, s.actors);
    TakersUnparked(s.takers, s.workers, s.finished);
    NotesUnparked(s);
  }

  /** Nobody is left asleep, whoever owes what. */
  lemma UnparkedSleep(jobs: seq<nat>, workers: seq<Worker>, stopped: bool, actors: seq<Actor>)
    ensures SleepOk(jobs, Unparked(workers), stopped, actors)
  {
    hide AnyLive, Awake, AnyParked, Unparked;
    UnparkedIs(workers);
  }

  lemma NotifyAllOk(s: State, t: nat)
    requires PoolOk(s) && t < |s.actors|
    ensures PoolOk(DoNotifyAll(s, t))
  {
    hide JobsOk, TakersOk, HandlesOk, NotesOk, NoteOk, SleepOk, Unparked;
    if s.actors[t].JoinNotify? || s.actors[t].FailNotify? {
      var u := s.(workers := Unparked(s.workers));
      var s' := DoNotifyAll(s, t);
      UnparkOk(s);
      UnparkedSleep(s.jobs, s.workers, s.stopped, s'.actors);
      NotesMove(u, t, s'.actors[t]) by { NoteAt(u, t); }
      assert Reachable(s'.actors, s'.workersLock, s'.handles) == Reachable(s.actors, s.workersLock, s.handles);
    }
  }

  lemma NoteAt(s: State, t: nat)
    requires NotesOk(s.actors, s.submitted, |s.takers|, s.workers, s.stopped, s.resets) && t < |s.actors|
    ensures NoteOf(s.actors[t]).Some? ==>
              NoteOk(NoteOf(s.actors[t]).value, s.submitted, |s.takers|, s.workers, s.stopped, s.resets)
  {
  }

  // ----- join and start -----

  lemma JoinStopOk(s: State, t: nat)
    requires PoolOk(s) && t < |s.actors|
    ensures PoolOk(DoJoinStop(s, t))
  {
    hide TakersOk, HandlesOk, AnyParked, Awake, OwesOne, OwesAll;
    if s.actors[t].Free? {
      var s' := DoJoinStop(s, t);
      OwedMove(s.actors, t, s'.actors[t]);
      NotesStop(s);
      NotesMove(s.(stopped := true), t, s'.actors[t]);
      assert Reachable(s'.actors, s'.workersLock, s'.handles) == Reachable(s.actors, s.workersLock, s.handles);
    }
  }

  lemma NotesStop(s: State)
    requires NotesOk(s.actors, s.submitted, |s.takers|, s.workers, s.stopped, s.resets)
    ensures NotesOk(s.actors, s.submitted, |s.takers|, s.workers, true, s.resets)
  {
  }

  lemma JoinDrainOk(s: State, t: nat)
    requires PoolOk(s) && t < |s.actors|
    ensures PoolOk(DoJoinDrain(s, t)) && PoolOk(DoJoinReturn(s, t)) && PoolOk(DoStartLock(s, t))
  {
    hide JobsOk, TakersOk, HandlesOk, NotesOk, SleepOk;
    var pc := s.actors[t];
    if pc.JoinLock? && s.workersLock.None? {
      var s' := DoJoinDrain(s, t);
      assert Reachable(s'.actors, s'.workersLock, s'.handles) == Reachable(s.actors, s.workersLock, s.handles);
      ActorMove(s, s', t);
    }
    if pc.Joining? && pc.left == {} {
      var s' := DoJoinReturn(s, t);
      assert Reachable(s'.actors, s'.workersLock, s'.handles) == Reachable(s.actors, s.workersLock, s.handles);
      ActorMove(s, s', t);
    }
    if DoStartLock(s, t) != s {
      var s' := DoStartLock(s, t);
      assert Reachable(s'.actors, s'.workersLock, s'.handles) == Reachable(s.actors, s.workersLock, s.handles);
      ActorMove(s, s', t);
    }
  }

  lemma ReapOk(s: State, t: nat, w: nat)
    requires PoolOk(s) && t < |s.actors|
    ensures PoolOk(DoReap(s, t, w))
  {
    hide JobsOk, TakersOk, NotesOk, SleepOk;
    var s' := DoReap(s, t, w);
    if s' != s {
      assert Reachable(s'.actors, s'.workersLock, s'.handles) == Reachable(s.actors, s.workersLock, s.handles) - {w};
      ActorMove(s, s', t);
    }
  }

  lemma NotesSpawn(s: State)
    requires NotesOk(s.actors, s.submitted, |s.takers|, s.workers, s.stopped, s.resets)
    ensures NotesOk(s.actors, s.submitted, |s.takers|, s.workers + [Looking], s.stopped, s.resets)
  {
    forall t | 0 <= t < |s.actors| && NoteOf(s.actors[t]).Some?
      ensures NoteOk(NoteOf(s.actors[t]).value, s.submitted, |s.takers|, s.workers + [Looking], s.stopped, s.resets)
    {
      var n := NoteOf(s.actors[t]).value;
      assert NoteOk(n, s.submitted, |s.takers|, s.workers, s.stopped, s.resets);
      assert LaterLive(s.workers + [Looking], n.spawned) by {
        assert !(s.workers + [Looking])[|s.workers|].Exited?;
      }
      if StillLive(s.workers, n.spawned) {
        var w :| 0 <= w < |s.workers| && w < n.spawned && !s.workers[w].Exited?;
        assert !(s.workers + [Looking])[w].Exited?;
      }
    }
  }

  lemma TakersSpawn(takers: seq<nat>, workers: seq<Worker>, finished: set<nat>)
    requires TakersOk(takers, workers, finished)
    ensures TakersOk(takers, workers + [Looking], finished)
  {
    forall j | 0 <= j < |takers| ensures TakenOk(takers, workers + [Looking], finished, j) {
      assert TakenOk(takers, workers, finished, j);
    }
    forall w | 0 <= w < |workers + [Looking]| ensures RunsOk(takers, workers + [Looking], finished, w) {
      assert w < |workers| ==> RunsOk(takers, workers, finished, w);
    }
  }

  /** A new worker is awake. */
  lemma SpawnSleep(s: State, actors: seq<Actor>)
    requires SleepOk(s.jobs, s.workers, s.stopped, s.actors) && (OwesAll(s.actors) ==> OwesAll(actors))
    ensures SleepOk(s.jobs, s.workers + [Looking], s.stopped, actors)
  {
    hide OwesAll, OwesOne;
    assert (s.workers + [Looking])[|s.workers|].Looking?;
    if AnyParked(s.workers + [Looking]) {
      var w :| 0 <= w < |s.workers + [Looking]| && (s.workers + [Looking])[w].Parked?;
      assert s.workers[w].Parked?;
    }
  }

  lemma FailSleep(s: State, actors: seq<Actor>)
    requires SleepOk(s.jobs, s.workers, s.stopped, s.actors) && OwesAll(actors) && (OwesOne(s.actors) ==> OwesOne(actors))
    ensures SleepOk(s.jobs, s.workers, true, actors)
  {
  }

  lemma SpawnHandles(workers: seq<Worker>, handles: set<nat>)
    requires HandlesOk(workers, handles)
    ensures HandlesOk(workers + [Looking], handles + {|workers|})
  {
  }

  lemma SpawnOk(s: State, t: nat, ok: bool)
    requires PoolOk(s) && t < |s.actors|
    ensures PoolOk(DoSpawn(s, t, ok))
  {
    hide JobsOk, TakersOk, NotesOk, NoteOk, AnyLive, Awake, AnyParked, OwesOne, OwesAll, HandlesOk, SleepOk;
    if s.actors[t].Starting? {
      var s' := DoSpawn(s, t, ok);
      OwedMove(s.actors, t, s'.actors[t]);
      if ok {
        var u := s.(workers := s.workers + [Looking]);
        SpawnSleep(s, s'.actors);
        TakersSpawn(s.takers, s.workers, s.finished);
        NotesSpawn(s);
        NotesMove(u, t, s'.actors[t]);
        assert Reachable(s'.actors, s'.workersLock, s'.handles) == s.handles + {|s.workers|};
        SpawnHandles(s.workers, s.handles);
      } else {
        FailSleep(s, s'.actors);
        NotesStop(s);
        NotesMove(s.(stopped := true), t, FailNotify);
        assert Reachable(s'.actors, s'.workersLock, s'.handles) == s.handles;
      }
    }
  }

  lemma NotesReset(s: State)
    requires NotesOk(s.actors, s.submitted, |s.takers|, s.workers, s.stopped, s.resets)
    ensures NotesOk(s.actors, s.submitted, |s.takers|, s.workers, false, s.resets + 1)
  {
  }

  lemma StartResetOk(s: State, t: nat)
    requires PoolOk(s) && t < |s.actors|
    ensures PoolOk(DoStartReset(s, t))
  {
    hide JobsOk, TakersOk, NotesOk, HandlesOk, AnyLive, Awake, AnyParked, OwesOne, OwesAll;
    var pc := s.actors[t];
    if pc.FailJoining? && pc.left == {} {
      var s' := DoStartReset(s, t);
      OwedMove(s.actors, t, Free);
      NotesReset(s);
      NotesMove(s.(stopped := false, resets := s.resets + 1), t, Free);
      assert Reachable(s'.actors, s'.workersLock, s'.handles) == Reachable(s.actors, s.workersLock, s.handles);
    }
  }

  // ----- all turns -----

  lemma FenceStepOk(s: State, t: nat, a: Step)
    requires PoolOk(s) && t < |s.actors|
    requires a.Register? || a.CancelLock? || a.CancelMark? || a.CancelUnlock? || a.FinishLock? || a.FinishUnmark?
             || a.FinishUnlock? || a.StopFlags? || a.StopSnapshot? || a.StopNext?
    ensures PoolOk(Act(s, t, a))
  {
    hide PoolOk;
    var s' := Act(s, t, a);
    if s' != s {
      ElsewhereOk(s, s', t);
    }
  }

  lemma ActOk(s: State, t: nat, a: Step)
    requires PoolOk(s) && t < |s.actors|
    ensures PoolOk(Act(s, t, a))
  {
    hide PoolOk, DoSubmit, DoNotifyOne, DoJoinStop, DoNotifyAll, DoJoinDrain, DoReap, DoJoinReturn, DoStartLock, DoSpawn, DoStartReset;
    match a {
      case Submit => SubmitOk(s, t);
      case NotifyOne(w) => NotifyOneOk(s, t, w);
      case JoinStop => JoinStopOk(s, t);
      case NotifyAll => NotifyAllOk(s, t);
      case JoinDrain => JoinDrainOk(s, t);
      case ReapWorker(w) => ReapOk(s, t, w);
      case JoinReturn => JoinDrainOk(s, t);
      case StartLock => JoinDrainOk(s, t);
      case SpawnWorker(ok) => SpawnOk(s, t, ok);
      case StartReset => StartResetOk(s, t);
      case _ => FenceStepOk(s, t, a);
    }
  }

  lemma {:induction false} RunOk(s: State, turns: seq<Turn>)
    requires PoolOk(s)
    ensures PoolOk(Run(s, turns))
  {
    hide PoolOk, Act, DoLook, DoFinishJob, DoWake;
    if turns != [] {
      var r := Run(s, turns[..|turns| - 1]);
      RunOk(s, turns[..|turns| - 1]);
      match turns[|turns| - 1] {
        case ActorTurn(t, a) => if t < |r.actors| { ActOk(r, t, a); }
        case WorkerTurn(w, Look) => LookOk(r, w);
        case WorkerTurn(w, FinishJob) => FinishJobOk(r, w);
        case WorkerTurn(w, WakeSpuriously) => WakeOk(r, w);
      }
    }
  }

  lemma InitOk(actors: nat, maxWorkers: nat, turns: seq<Turn>)
    ensures PoolOk(Run(Init(actors, maxWorkers), turns))
  {
    assert PoolOk(Init(actors, maxWorkers));
    RunOk(Init(actors, maxWorkers), turns);
  }
}
