/** The cancellation fence and the handler pool of the scheduler, in every run. */
module SchedulerTheorems {
  import opened Prelude
  import opened Schedulers
  import opened SchedulerPool

  // ----- the fence -----

  predicate HoldsRegistered(pc: Actor) {
    pc.Cancelling? || pc.Cancelled? || pc.Removing? || pc.Removed?
  }

  /** While the lock is held only the identity being removed may be cancelled without being registered. */
  predicate FenceOk(s: State) {
    && (forall t | 0 <= t < |s.actors| :: HoldsRegistered(s.actors[t]) <==> s.registeredLock == Some(t))
    && (forall t | 0 <= t < |s.actors| && s.actors[t].Cancelling? :: s.actors[t].id in s.registered)
    && (forall id | id in s.cancelled && id !in s.registered ::
          s.registeredLock.Some? && s.registeredLock.value < |s.actors| && s.actors[s.registeredLock.value] == Removing(id))
  }

  /** One actor moved, outside the fence before and after; the fence state is the same. */
  predicate OutsideFence(s: State, s': State, t: nat) {
    && s'.registered == s.registered && s'.cancelled == s.cancelled && s'.registeredLock == s.registeredLock
    && t < |s.actors| == |s'.actors| && s'.actors == s.actors[t := s'.actors[t]]
    && !HoldsRegistered(s.actors[t]) && !HoldsRegistered(s'.actors[t])
  }

  lemma OutsideFenceOk(s: State, s': State, t: nat)
    requires FenceOk(s) && OutsideFence(s, s', t)
    ensures FenceOk(s')
  {
  }

  lemma FenceAct(s: State, t: nat, a: Step)
    requires FenceOk(s) && t < |s.actors|
    ensures FenceOk(Act(s, t, a))
  {
    hide FenceOk, OutsideFence, Unparked, AnyLive, AnyParked;
    match a {
      case Register(id, admitted) => FenceRegister(s, t, id, admitted);
      case CancelLock(id) => FenceCancel(s, t, id, {});
      case CancelMark => FenceMark(s, t);
      case CancelUnlock => FenceMark(s, t);
      case FinishLock(id) => FenceFinish(s, t, id);
      case FinishUnmark => FenceFinish(s, t, 0);
      case FinishUnlock => FenceFinish(s, t, 0);
      case StopNext(id) =>
        if s.actors[t].Stopping? && id in s.actors[t].rest {
          FenceCancel(s, t, id, s.actors[t].rest - {id});
        }
      case _ =>
        if Act(s, t, a) != s {
          if IsStop(a) {
            StopOutside(s, t, a);
          } else if IsJoin(a) {
            JoinOutside(s, t, a);
          } else {
            StartOutside(s, t, a);
          }
          OutsideFenceOk(s, Act(s, t, a), t);
        }
    }
  }

  predicate IsStop(a: Step) {
    a.StopFlags? || a.StopSnapshot? || a.Submit? || a.NotifyOne? || a.JoinStop?
  }

  predicate IsJoin(a: Step) {
    a.NotifyAll? || a.JoinDrain? || a.ReapWorker? || a.JoinReturn?
  }

  predicate IsStart(a: Step) {
    a.StartLock? || a.SpawnWorker? || a.StartReset?
  }

  lemma StopOutside(s: State, t: nat, a: Step)
    requires t < |s.actors| && IsStop(a) && Act(s, t, a) != s
    ensures OutsideFence(s, Act(s, t, a), t)
  {
    hide AnyLive, AnyParked;
  }

  lemma JoinOutside(s: State, t: nat, a: Step)
    requires t < |s.actors| && IsJoin(a) && Act(s, t, a) != s
    ensures OutsideFence(s, Act(s, t, a), t)
  {
    hide Unparked, DoNotifyAll, DoReap;
    match a {
      case NotifyAll => NotifyOutside(s, t);
      case ReapWorker(w) => ReapOutside(s, t, w);
      case _ =>
    }
  }

  lemma NotifyOutside(s: State, t: nat)
    requires t < |s.actors| && DoNotifyAll(s, t) != s
    ensures OutsideFence(s, DoNotifyAll(s, t), t)
  {
  }

  lemma ReapOutside(s: State, t: nat, w: nat)
    requires t < |s.actors| && DoReap(s, t, w) != s
    ensures OutsideFence(s, DoReap(s, t, w), t)
  {
  }

  lemma StartOutside(s: State, t: nat, a: Step)
    requires t < |s.actors| && IsStart(a) && Act(s, t, a) != s
    ensures OutsideFence(s, Act(s, t, a), t)
  {
  }

  lemma FenceRegister(s: State, t: nat, id: nat, admitted: bool)
    requires FenceOk(s) && t < |s.actors|
    ensures FenceOk(DoRegister(s, t, id, admitted))
  {
  }

  lemma FenceCancel(s: State, t: nat, id: nat, rest: set<nat>)
    requires FenceOk(s) && t < |s.actors|
    ensures s.actors[t].Free? || s.actors[t].Stopping? ==> FenceOk(DoCancelLock(s, t, id, rest))
  {
  }

  lemma FenceMark(s: State, t: nat)
    requires FenceOk(s) && t < |s.actors|
    ensures FenceOk(DoCancelMark(s, t)) && FenceOk(DoCancelUnlock(s, t))
  {
  }

  lemma FenceFinish(s: State, t: nat, id: nat)
    requires FenceOk(s) && t < |s.actors|
    ensures FenceOk(DoFinishLock(s, t, id)) && FenceOk(DoFinishUnmark(s, t)) && FenceOk(DoFinishUnlock(s, t))
  {
  }

  lemma {:induction false} FenceRun(s: State, turns: seq<Turn>)
    requires FenceOk(s)
    ensures FenceOk(Run(s, turns))
  {
    hide Act;
    if turns != [] {
      var r := Run(s, turns[..|turns| - 1]);
      FenceRun(s, turns[..|turns| - 1]);
      match turns[|turns| - 1] {
        case ActorTurn(t, a) => if t < |r.actors| { FenceAct(r, t, a); }
        case WorkerTurn(_, _) =>
      }
    }
  }

  /** Whenever the `registered` lock is free, only registered subscriptions are marked cancelled. */
  lemma CancelledAreRegistered(actors: nat, maxWorkers: nat, turns: seq<Turn>)
    ensures var s := Run(Init(actors, maxWorkers), turns); s.registeredLock.None? ==> s.cancelled <= s.registered
  {
    hide Run;
    FenceRun(Init(actors, maxWorkers), turns);
  }

  /** After an immediate stop no handler may start and nothing is drained, ever again. */
  lemma {:induction false} StopIsFinal(s: State, turns: seq<Turn>, id: nat, cancelled: bool)
    requires s.immediate
    ensures var r := Run(s, turns); r.immediate && !HandlerMayStart(r, id, cancelled) && !ShouldDrain(r, id)
  {
    if turns != [] {
      StopIsFinal(s, turns[..|turns| - 1], id, cancelled);
      ImmediateStays(Run(s, turns[..|turns| - 1]), turns[|turns| - 1]);
    }
  }

  lemma ImmediateStays(s: State, turn: Turn)
    requires s.immediate
    ensures Next(s, turn).immediate
  {
  }

  /** A cancelled subscription stays fenced off until its own finish. */
  lemma {:induction false} CancelHolds(s: State, turns: seq<Turn>, id: nat, cancelled: bool)
    requires id in s.cancelled && forall t | 0 <= t < |s.actors| :: s.actors[t] != Removing(id)
    requires forall i | 0 <= i < |turns| && turns[i].ActorTurn? :: turns[i].step != FinishLock(id)
    ensures var r := Run(s, turns);
            && id in r.cancelled && !HandlerMayStart(r, id, cancelled) && !ShouldDrain(r, id)
            && forall t | 0 <= t < |r.actors| :: r.actors[t] != Removing(id)
  {
    if turns != [] {
      CancelHolds(s, turns[..|turns| - 1], id, cancelled);
      CancelStays(Run(s, turns[..|turns| - 1]), turns[|turns| - 1], id);
    }
  }

  lemma CancelStays(s: State, turn: Turn, id: nat)
    requires id in s.cancelled && forall t | 0 <= t < |s.actors| :: s.actors[t] != Removing(id)
    requires turn.ActorTurn? ==> turn.step != FinishLock(id)
    ensures var r := Next(s, turn); id in r.cancelled && forall t | 0 <= t < |r.actors| :: r.actors[t] != Removing(id)
  {
    hide Act, HoldsRegistered, OutsideFence;
    if turn.ActorTurn? && turn.actor < |s.actors| && Act(s, turn.actor, turn.step) != s {
      var t, a := turn.actor, turn.step;
      if IsStop(a) {
        StopOutside(s, t, a);
        NotRemoving(s, Act(s, t, a), t, id);
      } else if IsJoin(a) {
        JoinOutside(s, t, a);
        NotRemoving(s, Act(s, t, a), t, id);
      } else if IsStart(a) {
        StartOutside(s, t, a);
        NotRemoving(s, Act(s, t, a), t, id);
      } else {
        FenceCancelStays(s, t, a, id);
      }
    }
  }

  lemma FenceCancelStays(s: State, t: nat, a: Step, id: nat)
    requires t < |s.actors| && !IsStop(a) && !IsJoin(a) && !IsStart(a) && a != FinishLock(id)
    requires id in s.cancelled && forall u | 0 <= u < |s.actors| :: s.actors[u] != Removing(id)
    ensures var r := Act(s, t, a); id in r.cancelled && forall u | 0 <= u < |r.actors| :: r.actors[u] != Removing(id)
  {
  }

  lemma NotRemoving(s: State, s': State, t: nat, id: nat)
    requires OutsideFence(s, s', t) && forall u | 0 <= u < |s.actors| :: s.actors[u] != Removing(id)
    ensures s'.cancelled == s.cancelled && forall u | 0 <= u < |s'.actors| :: s'.actors[u] != Removing(id)
  {
  }

  // ----- the pool -----

  /** Every job ever submitted is queued, or running at the one worker that took it, or finished. */
  lemma EachJobOnce(actors: nat, maxWorkers: nat, turns: seq<Turn>, j: nat)
    requires j < Run(Init(actors, maxWorkers), turns).submitted
    ensures var s := Run(Init(actors, maxWorkers), turns);
            if j < |s.takers| then
              && j !in s.jobs
              && (forall w | 0 <= w < |s.workers| :: s.workers[w] == Running(j) <==> w == s.takers[j] && j !in s.finished)
            else
              && multiset(s.jobs)[j] == 1 && j !in s.finished
              && forall w | 0 <= w < |s.workers| :: s.workers[w] != Running(j)
  {
    hide Run, LockOk, HandlesOk, SleepOk, NotesOk;
    var s := Run(Init(actors, maxWorkers), turns);
    InitOk(actors, maxWorkers, turns);
    if j < |s.takers| {
      assert TakenOk(s.takers, s.workers, s.finished, j);
      forall w | 0 <= w < |s.workers| ensures s.workers[w] == Running(j) <==> w == s.takers[j] && j !in s.finished {
        assert RunsOk(s.takers, s.workers, s.finished, w);
      }
    } else {
      forall w | 0 <= w < |s.workers| ensures s.workers[w] != Running(j) {
        assert RunsOk(s.takers, s.workers, s.finished, w);
      }
      assert s.jobs[j - |s.takers|] == j;
      OnceInRange(s.jobs, |s.takers|, j);
    }
  }

  lemma {:induction false} OnceInRange(jobs: seq<nat>, first: nat, j: nat)
    requires forall i | 0 <= i < |jobs| :: jobs[i] == first + i
    ensures multiset(jobs)[j] == if first <= j < first + |jobs| then 1 else 0
  {
    if jobs != [] {
      var last := |jobs| - 1;
      assert jobs == jobs[..last] + [jobs[last]];
      OnceInRange(jobs[..last], first, j);
    }
  }

  /**
   * A join that is about to return: all workers have exited and no job is running. If a worker was alive when
   * the join set `stopped`, every job submitted before that is finished. The exact condition for that is that a
   * worker was alive then, or nothing was queued then, or the pool was started in between.
   */
  lemma JoinFinishesJobs(actors: nat, maxWorkers: nat, turns: seq<Turn>, t: nat)
    requires var s := Run(Init(actors, maxWorkers), turns); t < |s.actors| && s.actors[t].Joining? && s.actors[t].left == {}
    ensures var s := Run(Init(actors, maxWorkers), turns); var n := s.actors[t].note;
            && !AnyLive(s.workers)
            && (forall j | 0 <= j < |s.takers| :: j in s.finished)
            && (n.live ==> forall j | 0 <= j < n.submitted :: j in s.finished)
            && ((forall j | 0 <= j < n.submitted :: j in s.finished) <==> n.live || n.queued == [] || |s.workers| > n.spawned)
  {
    hide Run, SleepOk;
    var s := Run(Init(actors, maxWorkers), turns);
    var n := s.actors[t].note;
    InitOk(actors, maxWorkers, turns);
    assert Reachable(s.actors, s.workersLock, s.handles) == {};
    assert forall w | 0 <= w < |s.workers| :: s.workers[w].Exited?;
    forall j | 0 <= j < |s.takers| ensures j in s.finished {
      assert TakenOk(s.takers, s.workers, s.finished, j);
    }
    assert NoteOk(n, s.submitted, |s.takers|, s.workers, s.stopped, s.resets);
    if |s.workers| == n.spawned && !n.live && n.queued != [] {
      assert |s.takers| < n.submitted && |s.takers| !in s.finished;
    }
  }

  /** Queued work never waits for a sleeping pool, and no worker sleeps through a stop. */
  lemma NoWorkerIsForgotten(actors: nat, maxWorkers: nat, turns: seq<Turn>)
    ensures var s := Run(Init(actors, maxWorkers), turns);
            && (s.jobs != [] && AnyLive(s.workers) && !OwesOne(s.actors) ==> Awake(s.workers))
            && (s.stopped && !OwesAll(s.actors) ==> !AnyParked(s.workers))
  {
    hide Run, TakersOk, LockOk, HandlesOk, NotesOk;
    InitOk(actors, maxWorkers, turns);
  }

  // ----- how long a stop lasts -----

  /** Only three steps touch the flag and the count of failed starts. */
  lemma OthersKeepFlag(s: State, t: nat, a: Step)
    requires t < |s.actors| && !a.JoinStop? && !a.SpawnWorker? && !a.StartReset?
    ensures Act(s, t, a).stopped == s.stopped && Act(s, t, a).resets == s.resets
  {
    hide AnyParked, Unparked;
  }

  lemma StopsKeepFlag(s: State, t: nat, ok: bool)
    requires t < |s.actors|
    ensures DoJoinStop(s, t).resets == s.resets && (s.stopped ==> DoJoinStop(s, t).stopped)
    ensures DoSpawn(s, t, ok).resets == s.resets && (s.stopped ==> DoSpawn(s, t, ok).stopped)
  {
    hide AnyLive;
  }

  lemma ResetClearsFlag(s: State, t: nat)
    requires t < |s.actors|
    ensures DoStartReset(s, t) == s || (DoStartReset(s, t).resets == s.resets + 1 && !DoStartReset(s, t).stopped)
  {
  }

  /** Failed starts only add up; a turn without one keeps a set flag, and a failed start leaves it clear. */
  lemma FlagTurn(s: State, turn: Turn)
    ensures var r := Next(s, turn);
            && s.resets <= r.resets
            && (r.resets == s.resets && s.stopped ==> r.stopped)
            && (r.resets != s.resets ==> !r.stopped)
  {
    match turn {
      case ActorTurn(t, a) =>
        hide DoJoinStop, DoSpawn, DoStartReset;
        if t < |s.actors| {
          match a {
            case JoinStop => StopsKeepFlag(s, t, true);
            case SpawnWorker(ok) => StopsKeepFlag(s, t, ok);
            case StartReset => ResetClearsFlag(s, t);
            case _ => OthersKeepFlag(s, t, a);
          }
        }
      case WorkerTurn(_, _) =>
    }
  }

  /** Through any continuation a set flag stays set at every moment exactly when no start fails meanwhile. */
  lemma {:induction false} StopLastsExactly(s: State, more: seq<Turn>)
    requires s.stopped
    ensures s.resets <= Run(s, more).resets
    ensures (forall k | 0 <= k <= |more| :: Run(s, more[..k]).stopped) <==> Run(s, more).resets == s.resets
  {
    hide Next;
    if more == [] {
      assert forall k | 0 <= k <= |more| :: more[..k] == [];
    } else {
      var last := |more| - 1;
      var before := more[..last];
      StopLastsExactly(s, before);
      FlagTurn(Run(s, before), more[last]);
      PrefixSplit(s, more);
      assert before[..last] == before;
    }
  }

  lemma PrefixSplit(s: State, more: seq<Turn>)
    requires more != []
    ensures var last := |more| - 1;
            (forall k | 0 <= k <= |more| :: Run(s, more[..k]).stopped) <==>
            (forall k | 0 <= k <= last :: Run(s, more[..last][..k]).stopped) && Run(s, more).stopped
  {
    hide Run;
    var last := |more| - 1;
    assert more[..|more|] == more;
    assert forall k | 0 <= k <= last :: more[..last][..k] == more[..k];
  }

  /** Unless a start failed since a join set the flag, the flag is set and nobody sleeps without a notification due. */
  lemma JoinIsNotForgotten(actors: nat, maxWorkers: nat, turns: seq<Turn>, t: nat)
    requires var s := Run(Init(actors, maxWorkers), turns);
             t < |s.actors| && NoteOf(s.actors[t]).Some? && s.resets == NoteOf(s.actors[t]).value.resets
    ensures var s := Run(Init(actors, maxWorkers), turns);
            && s.stopped
            && (s.actors[t].Joining? && !OwesAll(s.actors) ==>
                  forall w | w in s.actors[t].left && w < |s.workers| :: !s.workers[w].Parked?)
  {
    hide Run, TakersOk, LockOk, HandlesOk, AnyLive, StillLive, LaterLive;
    InitOk(actors, maxWorkers, turns);
  }

  // ----- two runs that show the conditions are needed -----

  /** Joining a pool that was never started returns while a submitted job is still queued. */
  lemma JoinWithoutWorkers()
    ensures var s := Run(Run(Init(2, 1), [ActorTurn(0, Submit)]),
                         [ActorTurn(1, JoinStop), ActorTurn(1, NotifyAll), ActorTurn(1, JoinDrain)]);
            |s.actors| == 2 && s.actors[1].Joining? && s.actors[1].left == {} && s.submitted == 1 && 0 !in s.finished
  {
    hide Run, Next;
    var s := Run(Init(2, 1), [ActorTurn(0, Submit)]);
    RunOne(Init(2, 1), ActorTurn(0, Submit));
    assert s == DoSubmit(Init(2, 1), 0) by { SubmitTurn(Init(2, 1), 0); }
    JoinOfIdlePool(s, 1);
  }

  lemma SubmitTurn(s: State, t: nat)
    requires t < |s.actors|
    ensures Next(s, ActorTurn(t, Submit)) == DoSubmit(s, t)
  {
  }

  lemma JoinTurns(s: State, t: nat)
    requires t < |s.actors|
    ensures Next(s, ActorTurn(t, JoinStop)) == DoJoinStop(s, t) && Next(s, ActorTurn(t, NotifyAll)) == DoNotifyAll(s, t)
    ensures Next(s, ActorTurn(t, JoinDrain)) == DoJoinDrain(s, t)
  {
    hide DoJoinStop, DoNotifyAll, DoJoinDrain;
  }

  lemma StartTurns(s: State, t: nat)
    requires t < |s.actors|
    ensures Next(s, ActorTurn(t, StartLock)) == DoStartLock(s, t) && Next(s, ActorTurn(t, StartReset)) == DoStartReset(s, t)
    ensures forall ok :: Next(s, ActorTurn(t, SpawnWorker(ok))) == DoSpawn(s, t, ok)
    ensures forall w :: Next(s, WorkerTurn(w, Look)) == DoLook(s, w)
  {
    hide DoStartLock, DoStartReset, DoSpawn, DoLook;
  }

  lemma JoinOfIdlePool(s: State, t: nat)
    requires t < |s.actors| && s.actors[t].Free? && s.handles == {} && s.workersLock.None?
    ensures var r := Run(s, [ActorTurn(t, JoinStop), ActorTurn(t, NotifyAll), ActorTurn(t, JoinDrain)]);
            && |r.actors| == |s.actors| && r.actors[t].Joining? && r.actors[t].left == {}
            && r.submitted == s.submitted && r.finished == s.finished
  {
    hide Run, Next, AnyLive, Unparked;
    var r := DoNotifyAll(DoJoinStop(s, t), t);
    JoinTurns(s, t);
    JoinTurns(DoJoinStop(s, t), t);
    JoinTurns(r, t);
    RunThree(s, ActorTurn(t, JoinStop), ActorTurn(t, NotifyAll), ActorTurn(t, JoinDrain));
  }

  /** Nobody ever started a worker; a join waits for the handle lock, which a start holds. */
  predicate StartAndJoin(s: State) {
    && s.maxWorkers == 1 && |s.actors| == 2 && s.actors[0] == Starting(0) && s.actors[1].JoinLock?
    && s.workers == [] && s.handles == {} && s.jobs == []
  }

  lemma StartFails(s: State)
    requires StartAndJoin(s)
    ensures var r := Run(s, [ActorTurn(0, SpawnWorker(false)), ActorTurn(0, NotifyAll), ActorTurn(0, StartReset)]);
            && !r.stopped && r.workersLock.None? && r.maxWorkers == 1 && r.workers == [] && r.handles == {} && r.jobs == []
            && r.actors == [Free, s.actors[1]]
  {
    hide Run, Next;
    var s1 := DoSpawn(s, 0, false);
    var s2 := DoNotifyAll(s1, 0);
    StartTurns(s, 0);
    JoinTurns(s1, 0);
    StartTurns(s2, 0);
    assert s2.actors == [FailJoining({}), s.actors[1]] && s2.workers == [] && s2.handles == {} && s2.jobs == [];
    RunThree(s, ActorTurn(0, SpawnWorker(false)), ActorTurn(0, NotifyAll), ActorTurn(0, StartReset));
  }

  lemma StartTakesLock(s: State)
    requires |s.actors| == 2 && s.actors[0].Free? && s.workersLock.None? && s.handles == {} && s.maxWorkers == 1
    ensures DoStartLock(s, 0) == s.(workersLock := Some(0), actors := [Starting(0), s.actors[1]])
  {
  }

  lemma StartSpawns(s: State)
    requires |s.actors| == 2 && s.actors[0] == Starting(0) && s.workers == [] && s.handles == {} && s.maxWorkers == 1
    ensures DoSpawn(s, 0, true) == s.(workers := [Looking], handles := {0}, workersLock := None, actors := [Free, s.actors[1]])
  {
  }

  lemma WorkerSleeps(s: State)
    requires s.workers == [Looking] && s.jobs == [] && !s.stopped
    ensures DoLook(s, 0) == s.(workers := [Parked])
  {
  }

  lemma StartSucceeds(s: State)
    requires !s.stopped && s.workersLock.None? && s.maxWorkers == 1 && s.workers == [] && s.handles == {} && s.jobs == []
    requires |s.actors| == 2 && s.actors[0].Free? && s.actors[1].JoinLock?
    ensures var r := Run(s, [ActorTurn(0, StartLock), ActorTurn(0, SpawnWorker(true)), WorkerTurn(0, Look)]);
            && !r.stopped && r.workersLock.None? && r.workers == [Parked] && r.handles == {0} && r.actors == s.actors
  {
    hide Run, Next, DoStartLock, DoSpawn, DoLook;
    var s1 := DoStartLock(s, 0);
    assert |s1.actors| == 2 by { StartTakesLock(s); }
    var s2 := DoSpawn(s1, 0, true);
    StartTurns(s, 0);
    StartTurns(s1, 0);
    StartTakesLock(s);
    StartSpawns(s1);
    WorkerSleeps(s2);
    assert s2.actors == s.actors;
    StartTurns(s2, 0);
    RunThree(s, ActorTurn(0, StartLock), ActorTurn(0, SpawnWorker(true)), WorkerTurn(0, Look));
  }

  /**
   * A start that fails after a join set `stopped` clears it again; a second start then leaves the join waiting
   * for a worker that sleeps with nobody owing it a notification.
   */
  lemma JoinMayMissItsStop()
    ensures exists turns :: MissedStop(Run(Init(2, 1), turns))
  {
    hide Run, Next;
    var a := [ActorTurn(0, StartLock), ActorTurn(1, JoinStop), ActorTurn(1, NotifyAll)];
    var b := [ActorTurn(0, SpawnWorker(false)), ActorTurn(0, NotifyAll), ActorTurn(0, StartReset)];
    var c := [ActorTurn(0, StartLock), ActorTurn(0, SpawnWorker(true)), WorkerTurn(0, Look)];
    var d := [ActorTurn(1, JoinDrain)];
    var s := Init(2, 1);
    StartMeetsJoin();
    StartFails(Run(s, a));
    StartSucceeds(Run(Run(s, a), b));
    JoinWaits(Run(Run(Run(s, a), b), c));
    RunConcat(s, a, b);
    RunConcat(s, a + b, c);
    RunConcat(s, a + b + c, d);
    assert MissedStop(Run(s, a + b + c + d));
  }

  predicate MissedStop(s: State) {
    && |s.actors| == 2 && |s.workers| == 1 && s.actors[1].Joining? && s.actors[1].left == {0}
    && s.workers[0].Parked? && !s.stopped && !OwesAll(s.actors) && !OwesOne(s.actors)
  }

  lemma StartMeetsJoin()
    ensures var s := Run(Init(2, 1), [ActorTurn(0, StartLock), ActorTurn(1, JoinStop), ActorTurn(1, NotifyAll)]);
            StartAndJoin(s)
  {
    hide Run, Next, AnyLive;
    var s1 := DoStartLock(Init(2, 1), 0);
    var s2 := DoJoinStop(s1, 1);
    StartTurns(Init(2, 1), 0);
    JoinTurns(s1, 1);
    JoinTurns(s2, 1);
    assert s2.actors[0] == Starting(0) && s2.actors[1].JoinNotify? && s2.workers == [] && s2.handles == {};
    RunThree(Init(2, 1), ActorTurn(0, StartLock), ActorTurn(1, JoinStop), ActorTurn(1, NotifyAll));
  }

  lemma JoinWaits(s: State)
    requires !s.stopped && s.workersLock.None? && s.workers == [Parked] && s.handles == {0}
    requires |s.actors| == 2 && s.actors[0].Free? && s.actors[1].JoinLock?
    ensures MissedStop(Run(s, [ActorTurn(1, JoinDrain)]))
  {
    hide Run;
    RunOne(s, ActorTurn(1, JoinDrain));
  }

  lemma RunOne(s: State, a: Turn)
    ensures Run(s, [a]) == Next(s, a)
  {
  }

  lemma RunThree(s: State, a: Turn, b: Turn, c: Turn)
    ensures Run(s, [a, b, c]) == Next(Next(Next(s, a), b), c)
  {
    hide Next;
    assert [a, b, c][..2] == [a, b] && [a, b][..1] == [a];
    RunOne(s, a);
  }

  lemma {:induction false} RunConcat(s: State, a: seq<Turn>, b: seq<Turn>)
    ensures Run(s, a + b) == Run(Run(s, a), b)
  {
    hide Next;
    if b == [] {
      assert a + b == a;
    } else {
      var last := |b| - 1;
      RunConcat(s, a, b[..last]);
      assert (a + b)[..|a| + last] == a + b[..last];
    }
  }
}
