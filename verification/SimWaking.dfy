/** Who sleeps, who wakes and when, over all runs of the simulation (pkg/testsim/runtime.go, process.go). */
module SimWaking {
  import opened Types
  import opened ActionHeap
  import opened Simulation

  // ---------------------------------------------------------------- one round of the runtime

  ghost predicate Least(q: seq<Entry>, e: Entry) {
    e in multiset(q) && forall f | f in multiset(q) :: e.deadline <= f.deadline
  }

  /** The process of an executed action is the only one active, unless it was killed. */
  ghost function Woken(s: State, e: Entry): set<nat> {
    if e.process in s.killed then {} else {e.process}
  }

  ghost predicate Fired(s: State, e: Entry, s1: State) {
    && s1.now == e.deadline && s1.active == Woken(s, e) && s1.phase.Waiting?
    && multiset(s1.queue) == multiset(s.queue) - multiset{e}
    && s1.killed == s.killed && s1.computed == s.computed && s1.processes == s.processes
  }

  lemma RootIsLeastOf(q: seq<Entry>)
    requires Heap(q, |q|) && q != []
    ensures Least(q, q[0]) && multiset(PopRest(q)) == multiset(q) - multiset{q[0]}
  {
    hide PopRest;
    PopKeeps(q);
    forall f | f in multiset(q) ensures q[0].deadline <= f.deadline {
      assert f in q;
    }
  }

  /** With nobody active and something scheduled, the runtime takes an action with the least deadline, sets the time to
      it and wakes its process, and only that. */
  lemma FiresNext(s: State) returns (e: Entry)
    requires Inv(s) && s.phase.Ready? && s.active == {} && s.queue != []
    ensures Least(s.queue, e)
    ensures
      var end := RunFrom(s, [] + [Popped] + [Woke]);
      end.Some? && Fired(s, e, end.value)
  {
    e := s.queue[0];
    RootIsLeastOf(s.queue);
    WakesAlone(s);
    hide Goes, RunFrom, Inv, Least, Pop, Activate, Fired;
    RunNothing(s);
    RunOnce(s, [], Popped, s, Pop(s));
    RunOnce(s, [] + [Popped], Woke, Pop(s), Activate(Pop(s), e.process).(phase := Waiting));
  }

  lemma WakesAlone(s: State)
    requires s.phase.Ready? && s.active == {} && s.queue != []
    requires multiset(PopRest(s.queue)) == multiset(s.queue) - multiset{s.queue[0]}
    ensures
      var e, s1 := s.queue[0], Pop(s);
      var s2 := Activate(s1, e.process).(phase := Waiting);
      Goes(s, Popped, s1) && Goes(s1, Woke, s2) && Fired(s, e, s2)
  {
    hide PopRest;
  }

  /** The runtime goes on exactly if nobody is active. */
  lemma QuiescesIff(s: State)
    requires Inv(s) && s.phase.Waiting?
    ensures Do(s, Quiesced) == Some(if s.active == {} then s.(phase := Ready) else s)
  {
    hide Heap, IdsBelow;
  }

  /** From a standing start. */
  lemma RoundFires(s: State) returns (e: Entry)
    requires Inv(s) && s.phase.Idle? && s.active == {} && s.queue != []
    ensures Least(s.queue, e)
    ensures
      var end := RunFrom(s, [] + [Started] + [Quiesced] + ([] + [Popped] + [Woke]));
      end.Some? && Fired(s, e, end.value)
  {
    hide Inv, RunFrom, PopRest, Least;
    var s1 := s.(phase := Waiting);
    DoKeepsInv(s, Started);
    QuiescesIff(s1);
    DoKeepsInv(s1, Quiesced);
    e := FiresNext(s.(phase := Ready));
    RunNothing(s);
    DoNext(s, [], Started);
    DoNext(s, [] + [Started], Quiesced);
    RunConcat(s, [] + [Started] + [Quiesced], [] + [Popped] + [Woke]);
  }

  /** With nobody active and nothing scheduled it stops again, without any effect. */
  lemma RoundEnds(s: State)
    requires Inv(s) && s.phase.Idle? && s.active == {} && s.queue == []
    ensures RunFrom(s, [] + [Started] + [Quiesced] + [Returned]) == Some(s)
    ensures Do(s.(phase := Ready), Popped) == Some(s.(phase := Ready))
  {
    var s1, s2 := s.(phase := Waiting), s.(phase := Ready);
    DoKeepsInv(s, Started);
    QuiescesIff(s1);
    assert Goes(s, Started, s1) && Goes(s1, Quiesced, s2) && Goes(s2, Returned, s);
    hide Inv, RunFrom, Goes;
    RunNothing(s);
    RunOnce(s, [], Started, s, s1);
    RunOnce(s, [] + [Started], Quiesced, s1, s2);
    RunOnce(s, [] + [Started] + [Quiesced], Returned, s2, s);
  }

  /** An active process that calls Delay puts itself to sleep until the time it asked for, and panics exactly if that
      time cannot be represented. */
  lemma DelaySleeps(s: State, p: nat, d: Duration)
    requires Inv(s) && p in s.active && p !in s.computed
    ensures
      var end := RunFrom(s, [] + [Computed(p, d)] + [Pushed(p)] + [Stopped(p)]);
      if 0 <= s.now + d < TWO63 then
        && end.Some? && end.value.active == s.active - {p} && end.value.computed == s.computed
        && multiset(end.value.queue) == multiset(s.queue) + multiset{Entry(s.actions, s.now + d, p)}
        && end.value.now == s.now && end.value.killed == s.killed && end.value.phase == s.phase
      else end.None?
  {
    hide Inv, RunFrom, Goes, Do;
    RunNothing(s);
    if 0 <= s.now + d < TWO63 {
      var s1, s2, s3 := DelayGoes(s, p, d);
      RunOnce(s, [], Computed(p, d), s, s1);
      RunOnce(s, [] + [Computed(p, d)], Pushed(p), s1, s2);
      RunOnce(s, [] + [Computed(p, d)] + [Pushed(p)], Stopped(p), s2, s3);
    } else {
      DelayPanics(s, p, d);
      DoNext(s, [], Computed(p, d));
      DoNext(s, [] + [Computed(p, d)], Pushed(p));
      DoNext(s, [] + [Computed(p, d)] + [Pushed(p)], Stopped(p));
    }
  }

  lemma DelayPanics(s: State, p: nat, d: Duration)
    requires Inv(s) && p in s.active && p !in s.computed && !(0 <= s.now + d < TWO63)
    ensures Do(s, Computed(p, d)).None?
  {
    hide TimeAfter, Heap, IdsBelow;
    TimeAfterIsExact(s.now, d);
  }

  lemma DelayGoes(s: State, p: nat, d: Duration) returns (s1: State, s2: State, s3: State)
    requires Inv(s) && p in s.active && p !in s.computed && 0 <= s.now + d < TWO63
    ensures Goes(s, Computed(p, d), s1) && Goes(s1, Pushed(p), s2) && Goes(s2, Stopped(p), s3)
    ensures s3 == s2.(active := s.active - {p}, nrActive := s3.nrActive)
    ensures s2 == s.(queue := s2.queue, actions := s2.actions)
    ensures multiset(s2.queue) == multiset(s.queue) + multiset{Entry(s.actions, s.now + d, p)}
  {
    TimeAfterIsExact(s.now, d);
    PushKeeps(s.queue, Entry(s.actions, s.now + d, p));
    assert p < s.processes;
    hide Push, Inv, TimeAfter;
    s1 := s.(computed := s.computed[p := s.now + d]);
    assert s1.computed - {p} == s.computed;
    s2 := Schedule(s1, p);
    s3 := Deactivate(s2, p);
  }

  // ---------------------------------------------------------------- looking back over a run

  /** The state before step i. */
  ghost function StateAt(steps: seq<Step>, i: nat): State
    requires i <= |steps|
  {
    if Run(steps[..i]).Some? then Run(steps[..i]).value else INIT
  }

  lemma {:induction false} RunsSoFar(steps: seq<Step>, i: nat)
    requires Run(steps).Some? && i <= |steps|
    ensures Run(steps[..i]).Some? && Inv(StateAt(steps, i)) && StateAt(steps, i) == Run(steps[..i]).value
    ensures i < |steps| ==> Goes(StateAt(steps, i), steps[i], StateAt(steps, i + 1))
    ensures StateAt(steps, |steps|) == Run(steps).value
    decreases |steps| - i
  {
    hide Do, Inv;
    assert steps[..|steps|] == steps;
    if i < |steps| {
      RunsSoFar(steps, i + 1);
      assert steps[..i + 1][..i] == steps[..i];
    }
    RunKeepsInv(steps[..i]);
  }

  lemma SameBefore(steps: seq<Step>, step: Step, i: nat)
    requires i <= |steps|
    ensures StateAt(steps + [step], i) == StateAt(steps, i)
  {
    assert (steps + [step])[..i] == steps[..i];
  }

  // ---------------------------------------------------------------- who is active

  /** Step i wakes or creates process p. */
  ghost predicate Wakes(s: State, step: Step, p: nat) {
    && p !in s.killed
    && match step
       case Spawned => p == s.processes
       case Woken(q) => p == q < s.processes
       case Woke => s.phase == Firing(p)
       case _ => false
  }

  /** Step i stops or kills process p. */
  ghost predicate Stops(s: State, step: Step, p: nat) {
    match step
    case Stopped(q) => p == q && p !in s.computed
    case Killed(q) => p == q
    case _ => false
  }

  ghost predicate ActiveSince(steps: seq<Step>, i: nat, p: nat) {
    && i < |steps| && Wakes(StateAt(steps, i), steps[i], p)
    && forall k | i < k < |steps| :: !Stops(StateAt(steps, k), steps[k], p)
  }

  lemma DoActive(s: State, step: Step, p: nat)
    requires Inv(s) && Do(s, step).Some?
    ensures p in Do(s, step).value.active <==> Wakes(s, step, p) || (p in s.active && !Stops(s, step, p))
  {
    hide Heap, IdsBelow, Push, PopRest, Unschedule, TimeAfter;
    if step.Unscheduled? {
      UnscheduleTakesOut(s, step.id);
    }
  }

  lemma ActiveSinceLast(steps: seq<Step>, step: Step, i: nat, p: nat)
    ensures i < |steps| ==>
      (ActiveSince(steps + [step], i, p) <==>
         ActiveSince(steps, i, p) && !Stops(StateAt(steps, |steps|), step, p))
    ensures ActiveSince(steps + [step], |steps|, p) <==> Wakes(StateAt(steps, |steps|), step, p)
  {
    hide StateAt, Stops, Wakes;
    forall k: nat | k <= |steps| ensures StateAt(steps + [step], k) == StateAt(steps, k) {
      SameBefore(steps, step, k);
    }
    assert forall k | 0 <= k < |steps| :: (steps + [step])[k] == steps[k];
    if i < |steps| && ActiveSince(steps + [step], i, p) {
      forall k | i < k < |steps| ensures !Stops(StateAt(steps, k), steps[k], p) {
        assert !Stops(StateAt(steps + [step], k), (steps + [step])[k], p);
      }
      assert !Stops(StateAt(steps + [step], |steps|), (steps + [step])[|steps|], p);
    }
  }

  /** Over every run: a process is active exactly if it was created or woken when it was not killed, and neither stopped
      nor was killed since. */
  lemma {:induction false} ActiveIff(steps: seq<Step>, p: nat)
    requires Run(steps).Some?
    ensures p in Run(steps).value.active <==> exists i :: ActiveSince(steps, i, p)
    decreases |steps|
  {
    hide Do, Inv, ActiveSince, Wakes, Stops;
    if steps == [] {
      assert forall i :: !ActiveSince(steps, i, p) by {
        NothingYet(p);
      }
    } else {
      var init, last := steps[..|steps| - 1], steps[|steps| - 1];
      assert steps == init + [last];
      RunKeepsInv(init);
      ActiveIff(init, p);
      DoActive(Run(init).value, last, p);
      assert StateAt(init, |init|) == Run(init).value by {
        assert init[..|init|] == init;
      }
      hide StateAt, RunFrom;
      forall i: nat | i <= |init|
        ensures ActiveSince(steps, i, p) <==>
          if i == |init| then Wakes(StateAt(init, i), last, p)
          else ActiveSince(init, i, p) && !Stops(StateAt(init, |init|), last, p)
      {
        ActiveSinceLast(init, last, i, p);
      }
      ActiveWhen(init, p);
      ActiveWhen(steps, p);
    }
  }

  lemma NothingYet(p: nat)
    ensures forall i :: !ActiveSince([], i, p)
  {}

  lemma ActiveWhen(steps: seq<Step>, p: nat)
    ensures forall i: nat | ActiveSince(steps, i, p) :: i < |steps|
  {}

  // ---------------------------------------------------------------- what is queued

  /** Step i, the second part of a Delay, puts e into the queue. */
  ghost predicate Puts(s: State, step: Step, e: Entry) {
    step == Pushed(e.process) && e.process in s.computed && e == Entry(s.actions, s.computed[e.process], e.process)
  }

  /** The step takes e from the queue to execute it. */
  ghost predicate Takes(s: State, step: Step, s1: State, e: Entry) {
    step.Popped? && e in multiset(s.queue) && e !in multiset(s1.queue)
  }

  lemma DoTakes(s: State, step: Step, e: Entry)
    requires Inv(s) && Do(s, step).Some? && Takes(s, step, Do(s, step).value, e)
    ensures Least(s.queue, e)
    ensures
      var s1 := Do(s, step).value;
      && s1.now == e.deadline && s1.phase == Firing(e.process)
      && multiset(s1.queue) == multiset(s.queue) - multiset{e} && s1.active == s.active
  {
    hide PopRest, Heap, IdsBelow, Counted;
    if s.phase.Ready? && s.queue != [] {
      RootIsLeastOf(s.queue);
      PopKeepsInv(s);
    }
  }

  lemma DoQueued(s: State, step: Step, e: Entry)
    requires Inv(s) && Do(s, step).Some?
    ensures
      e in multiset(Do(s, step).value.queue) <==>
        || Puts(s, step, e)
        || (e in multiset(s.queue) && step != Unscheduled(e.id) && !Takes(s, step, Do(s, step).value, e))
  {
    hide Heap, IdsBelow, Counted, Pop, Schedule, Unschedule, TimeAfter;
    match step
    case Pushed(p) =>
      if p in s.computed {
        ScheduleQueues(s, p, e);
      }
    case Unscheduled(id) => UnscheduleTakesOut(s, id);
    case Popped =>
      if s.phase.Ready? && s.queue != [] {
        PopQueues(s, e);
      }
    case _ =>
  }

  lemma ScheduleQueues(s: State, p: nat, e: Entry)
    requires Inv(s) && p in s.computed
    ensures e in multiset(Schedule(s, p).queue) <==> Puts(s, Pushed(p), e) || e in multiset(s.queue)
  {
    hide Heap, IdsBelow, Counted, Push;
    PushKeeps(s.queue, Entry(s.actions, s.computed[p], p));
  }

  lemma PopQueues(s: State, e: Entry)
    requires Inv(s) && s.queue != []
    ensures e in multiset(Pop(s).queue) ==> e in multiset(s.queue)
  {
    hide Heap, IdsBelow, Counted, PopRest;
    RootIsLeastOf(s.queue);
  }

  ghost predicate QueuedSince(steps: seq<Step>, i: nat, e: Entry) {
    && i < |steps| && Puts(StateAt(steps, i), steps[i], e)
    && forall k | i < k < |steps| ::
         steps[k] != Unscheduled(e.id) && !Takes(StateAt(steps, k), steps[k], StateAt(steps, k + 1), e)
  }

  lemma QueuedSinceLast(steps: seq<Step>, step: Step, i: nat, e: Entry)
    ensures i < |steps| ==>
      (QueuedSince(steps + [step], i, e) <==>
         && QueuedSince(steps, i, e) && step != Unscheduled(e.id)
         && !Takes(StateAt(steps, |steps|), step, StateAt(steps + [step], |steps| + 1), e))
    ensures QueuedSince(steps + [step], |steps|, e) <==> Puts(StateAt(steps, |steps|), step, e)
  {
    hide StateAt, Takes, Puts;
    var all := steps + [step];
    forall k: nat | k <= |steps| ensures StateAt(all, k) == StateAt(steps, k) {
      SameBefore(steps, step, k);
    }
    assert forall k | 0 <= k < |steps| :: all[k] == steps[k];
    if i < |steps| && QueuedSince(all, i, e) {
      forall k | i < k < |steps|
        ensures steps[k] != Unscheduled(e.id) && !Takes(StateAt(steps, k), steps[k], StateAt(steps, k + 1), e)
      {
        assert all[k] != Unscheduled(e.id) && !Takes(StateAt(all, k), all[k], StateAt(all, k + 1), e);
      }
      assert all[|steps|] != Unscheduled(e.id);
    }
    if i < |steps| && QueuedSince(steps, i, e) {
      forall k | i < k < |steps|
        ensures all[k] != Unscheduled(e.id) && !Takes(StateAt(all, k), all[k], StateAt(all, k + 1), e)
      {
        assert steps[k] != Unscheduled(e.id) && !Takes(StateAt(steps, k), steps[k], StateAt(steps, k + 1), e);
      }
    }
  }

  /** Over every run: an action is in the queue exactly if a Delay has put it there and since then it was neither
      unscheduled nor taken to be executed. */
  lemma {:induction false} QueuedIff(steps: seq<Step>, e: Entry)
    requires Run(steps).Some?
    ensures e in multiset(Run(steps).value.queue) <==> exists i :: QueuedSince(steps, i, e)
    decreases |steps|
  {
    hide Do, Inv, QueuedSince, Puts, Takes;
    if steps == [] {
      assert forall i :: !QueuedSince(steps, i, e) by {
        NothingQueued(e);
      }
    } else {
      var init, last := steps[..|steps| - 1], steps[|steps| - 1];
      assert steps == init + [last];
      RunKeepsInv(init);
      QueuedIff(init, e);
      DoQueued(Run(init).value, last, e);
      assert StateAt(init, |init|) == Run(init).value && StateAt(steps, |steps|) == Run(steps).value by {
        assert init[..|init|] == init && steps[..|steps|] == steps;
      }
      hide StateAt, RunFrom;
      forall i: nat | i <= |init|
        ensures QueuedSince(steps, i, e) <==>
          if i == |init| then Puts(StateAt(init, i), last, e)
          else
            && QueuedSince(init, i, e) && last != Unscheduled(e.id)
            && !Takes(StateAt(init, |init|), last, StateAt(steps, |steps|), e)
      {
        QueuedSinceLast(init, last, i, e);
      }
      QueuedWhen(init, e);
      QueuedWhen(steps, e);
    }
  }

  lemma NothingQueued(e: Entry)
    ensures forall i :: !QueuedSince([], i, e)
  {}

  lemma QueuedWhen(steps: seq<Step>, e: Entry)
    ensures forall i: nat | QueuedSince(steps, i, e) :: i < |steps|
  {}

  // ---------------------------------------------------------------- waking on time

  /** Step i, the first part of a Delay by process p, computed the time t. */
  ghost predicate AsksFor(s: State, step: Step, p: nat, t: int) {
    step.Computed? && step.p == p && p < s.processes && p !in s.computed && s.now + step.d == t
  }

  lemma DoComputed(s: State, step: Step, p: nat)
    requires Inv(s) && Do(s, step).Some? && p in Do(s, step).value.computed
    ensures
      var t := Do(s, step).value.computed[p];
      AsksFor(s, step, p, t) || (p in s.computed && s.computed[p] == t)
  {
    hide Heap, IdsBelow, Push, PopRest, Unschedule, Wrap;
    if step.Unscheduled? {
      UnscheduleTakesOut(s, step.id);
    }
    if step.Computed? {
      TimeAfterIsExact(s.now, step.d);
    }
  }

  lemma {:induction false} ComputedWasAskedFor(steps: seq<Step>, n: nat, p: nat) returns (i: nat)
    requires Run(steps).Some? && n <= |steps| && p in StateAt(steps, n).computed
    ensures i < n && AsksFor(StateAt(steps, i), steps[i], p, StateAt(steps, n).computed[p])
    decreases n
  {
    hide Do, AsksFor, Inv;
    assert n > 0 by {
      assert steps[..0] == [];
    }
    RunsSoFar(steps, n - 1);
    hide StateAt, RunFrom;
    DoComputed(StateAt(steps, n - 1), steps[n - 1], p);
    if AsksFor(StateAt(steps, n - 1), steps[n - 1], p, StateAt(steps, n).computed[p]) {
      i := n - 1;
    } else {
      i := ComputedWasAskedFor(steps, n - 1, p);
    }
  }

  ghost predicate NoWoke(steps: seq<Step>, i: nat, k: nat)
    requires k <= |steps|
  {
    forall j | i < j < k :: steps[j] != Woke
  }

  lemma DoStaysFiring(s: State, step: Step)
    requires Inv(s) && Do(s, step).Some? && s.phase.Firing? && step != Woke
    ensures Do(s, step).value.phase == s.phase && Do(s, step).value.now == s.now
  {
    hide Heap, IdsBelow, Push, PopRest, Unschedule, TimeAfter;
    if step.Unscheduled? {
      UnscheduleTakesOut(s, step.id);
    }
  }

  lemma {:induction false} StaysFiring(steps: seq<Step>, i: nat, k: nat)
    requires Run(steps).Some? && i < k <= |steps| && NoWoke(steps, i, k) && StateAt(steps, i + 1).phase.Firing?
    ensures StateAt(steps, k).phase == StateAt(steps, i + 1).phase && StateAt(steps, k).now == StateAt(steps, i + 1).now
    decreases k
  {
    hide Do, Inv;
    if k > i + 1 {
      StaysFiring(steps, i, k - 1);
      RunsSoFar(steps, k - 1);
      hide StateAt, RunFrom;
      DoStaysFiring(StateAt(steps, k - 1), steps[k - 1]);
    }
  }

  /** Over every run: when the runtime has taken an action (step i) and executed it (step k), its process is active
      unless it was killed. The time is then the one that the process asked for in a call of Delay (step j), and no
      other action that was queued had an earlier one. */
  lemma WakesOnTime(steps: seq<Step>, i: nat, k: nat, e: Entry) returns (j: nat)
    requires Run(steps).Some? && i < k < |steps| && steps[k] == Woke && NoWoke(steps, i, k)
    requires Takes(StateAt(steps, i), steps[i], StateAt(steps, i + 1), e)
    ensures
      var s := StateAt(steps, k + 1);
      s.now == e.deadline && (e.process in s.active <==> e.process !in s.killed)
    ensures Least(StateAt(steps, i).queue, e)
    ensures j < i && AsksFor(StateAt(steps, j), steps[j], e.process, e.deadline)
  {
    hide Do, Inv, RunFrom, Least, AsksFor, QueuedSince;
    RunsSoFar(steps, i);
    RunsSoFar(steps, k);
    RunsSoFar(steps, k + 1);
    DoTakes(StateAt(steps, i), steps[i], e);
    StaysFiring(steps, i, k);
    WokeWakes(StateAt(steps, k), e.process);
    QueuedIff(steps[..i], e);
    var n: nat :| QueuedSince(steps[..i], n, e);
    PutIn(steps[..i], n, e);
    assert steps[..i][..n] == steps[..n];
    hide StateAt;
    j := ComputedWasAskedFor(steps, n, e.process);
  }

  lemma PutIn(steps: seq<Step>, n: nat, e: Entry)
    requires QueuedSince(steps, n, e)
    ensures
      && n < |steps| && e.process in StateAt(steps, n).computed
      && StateAt(steps, n).computed[e.process] == e.deadline
  {}

  lemma WokeWakes(s: State, p: nat)
    requires Inv(s) && s.phase == Firing(p) && Do(s, Woke).Some?
    ensures
      var s1 := Do(s, Woke).value;
      s1.now == s.now && (p in s1.active <==> p !in s1.killed)
  {
    hide Heap, IdsBelow;
  }

  // ---------------------------------------------------------------- who is killed

  ghost predicate KillsAt(steps: seq<Step>, i: nat, p: nat) {
    i < |steps| && steps[i] == Killed(p) && p < StateAt(steps, i).processes
  }

  lemma DoKilled(s: State, step: Step, p: nat)
    requires Inv(s) && Do(s, step).Some?
    ensures p in Do(s, step).value.killed <==> p in s.killed || (step == Killed(p) && p < s.processes)
    ensures step == Killed(p) && p < s.processes ==> p !in s.killed
  {
    hide Heap, IdsBelow, Push, PopRest, Unschedule, TimeAfter;
    if step.Unscheduled? {
      UnscheduleTakesOut(s, step.id);
    }
  }

  /** Over every run: a process is killed exactly if it was killed at some step, and that only once. */
  lemma {:induction false} KilledIff(steps: seq<Step>, p: nat)
    requires Run(steps).Some?
    ensures p in Run(steps).value.killed <==> exists i :: KillsAt(steps, i, p)
    ensures forall i, j | KillsAt(steps, i, p) && KillsAt(steps, j, p) :: i == j
    decreases |steps|
  {
    hide Do, Inv;
    if steps != [] {
      var init, last := steps[..|steps| - 1], steps[|steps| - 1];
      assert steps == init + [last];
      RunKeepsInv(init);
      KilledIff(init, p);
      DoKilled(Run(init).value, last, p);
      assert StateAt(init, |init|) == Run(init).value by {
        assert init[..|init|] == init;
      }
      hide StateAt, RunFrom;
      forall i: nat | i <= |init|
        ensures KillsAt(steps, i, p) <==>
          if i == |init| then last == Killed(p) && p < StateAt(init, i).processes else KillsAt(init, i, p)
      {
        SameBefore(init, last, i);
      }
    }
  }
}
