/** The simulation runtime and its processes as they run (pkg/testsim/runtime.go, process.go), proved against
    module Simulation. Each method is what the program does under one lock, or between two, and so one step there;
    Delay is three of them. Where the goroutines are in between is kept in ghost fields. */
module SimRuntime {
  import opened Types
  import opened ActionHeap
  import opened ActionQueue
  import S = Simulation

  class Process {
    const id: nat
    var active: bool
    var killed: bool

    constructor (id: nat)
      ensures this.id == id && !active && !killed
    {
      this.id, this.active, this.killed := id, false, false;
    }
  }

  ghost function ActiveIds(ps: seq<Process>): set<nat>
    reads ps
  {
    set i | 0 <= i < |ps| && ps[i].active
  }

  ghost function KilledIds(ps: seq<Process>): set<nat>
    reads ps
  {
    set i | 0 <= i < |ps| && ps[i].killed
  }

  /** Every action ever issued has its own number, and an index exactly while it is queued. */
  ghost predicate Tracked(issued: set<Action>, q: seq<Action>, actions: nat)
    reads issued
  {
    && (forall a | a in q :: a in issued)
    && (forall a | a in issued :: a.entry.id < actions && (a.index >= 0 <==> a in q))
    && (forall a, b | a in issued && b in issued && a.entry.id == b.entry.id :: a == b)
  }

  lemma OneMoreMember(q: seq<Action>, e: Action, q1: seq<Action>)
    requires multiset(q1) == multiset(q) + multiset{e}
    ensures forall a :: a in q1 <==> a in q || a == e
  {
    forall a ensures a in q1 <==> a in q || a == e {
      assert a in q1 <==> a in multiset(q1);
      assert a in q <==> a in multiset(q);
    }
  }

  /** The place of an action is where its number is. */
  lemma OnlyAt(issued: set<Action>, q: seq<Action>, actions: nat, e: Action)
    requires Tracked(issued, q, actions) && e in issued && forall i | 0 <= i < |q| :: q[i].index == i
    ensures e.index < |q| && forall i: nat :: S.At(Entries(q), e.entry.id, i) <==> i == e.index
  {
    if e.index >= 0 {
      var k :| 0 <= k < |q| && q[k] == e;
    }
    forall i: nat ensures S.At(Entries(q), e.entry.id, i) <==> i == e.index {
      if S.At(Entries(q), e.entry.id, i) {
        assert q[i] in issued && q[i] == e;
      }
    }
  }

  class Runtime {
    const queue: Queue
    var now: int
    var nrActiveProcs: int
    var actions: nat
    var processes: seq<Process>
    ghost var issued: set<Action>
    ghost var computed: map<nat, int>
    ghost var phase: S.Phase

    ghost predicate Valid()
      reads this, queue, queue.q, issued, processes
    {
      && queue.Valid() && Tracked(issued, queue.q, actions)
      && (forall i | 0 <= i < |processes| :: processes[i].id == i)
      && S.Inv(St())
    }

    ghost function St(): S.State
      reads this, queue, processes
    {
      S.State(now, Entries(queue.q), actions, |processes|, ActiveIds(processes), KilledIds(processes), nrActiveProcs,
              computed, phase)
    }

    constructor ()
      ensures Valid() && fresh(queue) && St() == S.INIT && issued == {}
    {
      queue := new Queue();
      now, nrActiveProcs, actions, processes := 0, 0, 0, [];
      issued, computed, phase := {}, map[], S.Idle;
      new;
      assert St() == S.INIT;
      S.InitInv();
    }

    // ---------------------------------------------------------------- processes

    method Activate(p: Process) returns (done: bool)
      requires Valid() && p in processes
      modifies this`nrActiveProcs, p`active
      ensures Valid() && St() == S.Activate(old(St()), p.id) && (done <==> St() != old(St()))
    {
      hide S.Inv;
      assert processes[p.id] == p;
      done := !p.active && !p.killed;
      if done {
        p.active := true;
        nrActiveProcs := nrActiveProcs + 1;
        assert ActiveIds(processes) == old(ActiveIds(processes)) + {p.id};
      }
      S.ActivateKeepsInv(old(St()), p.id);
      assert St() == S.Activate(old(St()), p.id);
    }

    method Deactivate(p: Process) returns (done: bool)
      requires Valid() && p in processes
      modifies this`nrActiveProcs, p`active
      ensures Valid() && St() == S.Deactivate(old(St()), p.id) && (done <==> St() != old(St()))
    {
      hide S.Inv;
      assert processes[p.id] == p;
      done := p.active;
      if done {
        p.active := false;
        nrActiveProcs := nrActiveProcs - 1;
        assert ActiveIds(processes) == old(ActiveIds(processes)) - {p.id};
      }
      S.DeactivateKeepsInv(old(St()), p.id);
      assert St() == S.Deactivate(old(St()), p.id);
    }

    method Spawn() returns (p: Process)
      requires Valid()
      modifies this`processes, this`nrActiveProcs
      ensures Valid() && fresh(p) && processes == old(processes) + [p] && St() == S.Spawn(old(St()))
    {
      hide S.Inv;
      p := new Process(|processes|);
      processes := processes + [p];
      assert ActiveIds(processes) == old(ActiveIds(processes)) && KilledIds(processes) == old(KilledIds(processes));
      S.OneMoreKeepsInv(old(St()));
      var _ := Activate(p);
    }

    /** The kill channel is closed once; closing it again panics. */
    method Kill(p: Process) returns (ok: bool)
      requires Valid() && p in processes
      modifies this`nrActiveProcs, p
      ensures ok <==> S.Kill(old(St()), p.id).Some?
      ensures ok ==> Valid() && St() == S.Kill(old(St()), p.id).value
    {
      hide S.Inv;
      assert processes[p.id] == p;
      if p.killed {
        return false;
      }
      var _ := Deactivate(p);
      p.killed := true;
      assert KilledIds(processes) == old(KilledIds(processes)) + {p.id};
      S.KillKeepsInv(old(St()), p.id);
      assert St() == S.Kill(old(St()), p.id).value;
      ok := true;
    }

    /** The first part of Delay reads the time without a lock. A negative result panics. */
    method TimeAfter(ghost p: Process, d: S.Duration) returns (t: Option<int>)
      requires Valid() && p in processes && p.id !in computed
      modifies this`computed
      ensures t.Some? <==> S.Compute(old(St()), p.id, d).Some?
      ensures t.Some? ==>
        && Valid() && St() == S.Compute(old(St()), p.id, d).value
        && p.id in computed && computed[p.id] == t.value
    {
      hide S.Inv, S.Wrap;
      assert processes[p.id] == p;
      var sum := S.Wrap(now + d);
      if sum < 0 {
        return None;
      }
      computed := computed[p.id := sum];
      S.ComputeKeepsInv(old(St()), p.id, d);
      t := Some(sum);
    }

    /** The second part of Delay puts an action into the queue. */
    method Schedule(t: int, p: Process) returns (e: Action)
      requires Valid() && p.id in computed && computed[p.id] == t
      modifies this`actions, this`issued, this`computed, queue, queue.q
      ensures Valid() && fresh(e) && issued == old(issued) + {e} && St() == S.Schedule(old(St()), p.id)
      ensures e.entry == Entry(old(actions), t, p.id)
    {
      hide S.Inv, Push, Entries;
      e := new Action(Entry(actions, t, p.id));
      queue.Push(e);
      OneMoreMember(old(queue.q), e, queue.q);
      actions, computed, issued := actions + 1, computed - {p.id}, issued + {e};
      assert Tracked(issued, queue.q, actions);
      hide Tracked;
      S.ScheduleKeepsInv(old(St()), p.id);
      assert St() == S.Schedule(old(St()), p.id);
    }

    /** All of Delay, if nothing comes between its parts: afterwards the process sleeps. */
    method Delay(p: Process, d: S.Duration) returns (e: Option<Action>)
      requires Valid() && p in processes && p.id !in computed
      modifies this, p`active, queue, queue.q
      ensures e.Some? <==> S.Compute(old(St()), p.id, d).Some?
      ensures e.Some? ==>
        && Valid() && e.value in issued
        && St() == S.Deactivate(S.Schedule(S.Compute(old(St()), p.id, d).value, p.id), p.id)
    {
      hide S.Inv, S.Compute, S.Schedule, S.Deactivate, Tracked;
      var t := TimeAfter(p, d);
      if t.None? {
        return None;
      }
      var a := Schedule(t.value, p);
      var _ := Deactivate(p);
      e := Some(a);
    }

    /** An action that is still scheduled knows its position. */
    method Unschedule(e: Action)
      requires Valid() && e in issued
      modifies queue, queue.q, e
      ensures Valid() && St() == S.Unschedule(old(St()), e.entry.id) && e.index < 0
    {
      hide S.Inv, Remove, Entries;
      OnlyAt(issued, queue.q, actions, e);
      S.UnscheduleAt(St(), e.entry.id, e.index);
      if e.index >= 0 {
        assert queue.q[e.index] == e;
        var _ := queue.Remove(e.index);
        OneMoreMember(queue.q, e, old(queue.q));
        e.index := -1;
      }
      assert Tracked(issued, queue.q, actions);
      assert St() == S.Unschedule(old(St()), e.entry.id);
      S.UnscheduleKeepsInv(old(St()), e.entry.id);
    }

    // ---------------------------------------------------------------- the runtime's own steps

    method Start()
      requires Valid() && phase.Idle?
      modifies this`phase
      ensures Valid() && S.Goes(old(St()), S.Started, St())
    {
      hide S.Inv;
      phase := S.Waiting;
      S.DoKeepsInv(old(St()), S.Started);
    }

    /** One look at the number of active processes while waiting for quiescence. */
    method SeesQuiescence() returns (quiet: bool)
      requires Valid() && phase.Waiting?
      modifies this`phase
      ensures Valid() && S.Goes(old(St()), S.Quiesced, St()) && (quiet <==> phase.Ready?)
    {
      hide S.Inv;
      S.InvCounted(St());
      quiet := !(nrActiveProcs > 0);
      if quiet {
        phase := S.Ready;
      }
      S.DoKeepsInv(old(St()), S.Quiesced);
    }

    /** Takes the next action from the queue and sets the time, under the lock of the queue. */
    method PopNext() returns (p: Process)
      requires Valid() && phase.Ready? && queue.q != []
      modifies this`now, this`phase, queue, queue.q
      ensures Valid() && S.Goes(old(St()), S.Popped, St()) && p in processes && phase == S.Firing(p.id)
    {
      hide S.Inv, PopRest;
      S.RootBounds(St());
      var e := queue.Pop();
      OneMoreMember(queue.q, e, old(queue.q));
      assert Tracked(issued, queue.q, actions);
      now := e.entry.deadline;
      phase := S.Firing(e.entry.process);
      S.DoKeepsInv(old(St()), S.Popped);
      p := processes[e.entry.process];
    }

    /** Executes the action, which wakes its process. */
    method Wake(p: Process)
      requires Valid() && p in processes && phase == S.Firing(p.id)
      modifies this`nrActiveProcs, this`phase, p`active
      ensures Valid() && S.Goes(old(St()), S.Woke, St())
    {
      hide S.Inv;
      var _ := Activate(p);
      phase := S.Waiting;
      S.DoKeepsInv(old(St()), S.Woke);
    }

    method Return()
      requires Valid() && phase.Ready?
      modifies this`phase
      ensures Valid() && S.Goes(old(St()), S.Returned, St())
    {
      hide S.Inv;
      phase := S.Idle;
      S.DoKeepsInv(old(St()), S.Returned);
    }
  }
}
