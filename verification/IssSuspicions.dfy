/** Whom the leader policy suspects, over whole runs of ISS. */
module IssSuspicions {
  import opened Quorums
  import opened Types
  import opened Segments
  import opened Iss
  import opened IssRuns
  import opened IssTheorems
  import opened SortedKeys
  import IssOrder
  import LP = LeaderPolicies

  // ---------------------------------------------------------------- suspicions since a restore

  /** The outcomes handled since the last restore, the latest one for every sequence number. */
  type Table = map<SeqNr, Input>

  function TableAfter(table: Table, i: Input): Table {
    var outcome := IssOrder.OutcomeOf(i);
    if outcome.Some? then table[outcome.value.0 := i] else table
  }

  ghost predicate Outcomes(table: Table) {
    forall sn | sn in table :: IssOrder.OutcomeOf(table[sn]).Some? && IssOrder.OutcomeOf(table[sn]).value.0 == sn
  }

  /** The leader delivered something that is no certificate or an invalid one. Both are suspected at once. */
  predicate Unusable(i: Input) {
    (i.SbDeliver? && !i.aborted && i.data.Unreadable?) || (i.CertVerified? && !i.valid)
  }

  /** The orderer aborted, or the leader delivered something unusable. */
  predicate Bad(i: Input) {
    (i.SbDeliver? && i.aborted) || Unusable(i)
  }

  function EntryOf(i: Input): Entry
    requires IssOrder.OutcomeOf(i).Some?
  {
    if Unusable(i) then Entry(EMPTY, true, i.leader) else Entry(i.data, i.SbDeliver?, i.leader)
  }

  ghost predicate LogFrom(log: map<SeqNr, Entry>, table: Table) {
    forall sn | sn in log ::
      sn in table && IssOrder.OutcomeOf(table[sn]).Some? && log[sn] == EntryOf(table[sn])
  }

  /** What an event of ISS means for the policy: delivering nothing blames the leader of the sequence number, and a new
      availability module tells the membership of the new epoch. */
  function EventOps(nr: EpochNr, table: Table, events: seq<Event>): seq<LP.PolicyOp>
    requires Outcomes(table)
  {
    if events == [] then []
    else EventOps(nr, table, events[..|events| - 1]) + OpsOf(nr, table, events[|events| - 1])
  }

  function OpsOf(nr: EpochNr, table: Table, e: Event): seq<LP.PolicyOp>
    requires Outcomes(table)
  {
    match e
    case DeliverCert(sn, cert) => if cert.None? && sn in table then [LP.SuspectNode(nr, table[sn].leader)] else []
    case NewAvailability(_, m) => [LP.ChangeMembership(m)]
    case _ => []
  }

  function StepOps(nr: EpochNr, table: Table, i: Input, out: seq<Event>): seq<LP.PolicyOp>
    requires Outcomes(table)
  {
    (if Unusable(i) then [LP.SuspectNode(nr, i.leader)] else []) + EventOps(nr, table, out)
  }

  lemma {:induction false} EventOpsConcat(nr: EpochNr, table: Table, a: seq<Event>, b: seq<Event>)
    requires Outcomes(table)
    ensures EventOps(nr, table, a + b) == EventOps(nr, table, a) + EventOps(nr, table, b)
    decreases |b|
  {
    hide OpsOf;
    if b == [] {
      assert a + b == a;
    } else {
      EventOpsConcat(nr, table, a, b[..|b| - 1]);
      assert (a + b)[..|a + b| - 1] == a + b[..|b| - 1];
    }
  }

  lemma {:induction false} ApplyOpsConcat(policy: LeaderPolicy, a: seq<LP.PolicyOp>, b: seq<LP.PolicyOp>)
    ensures LP.ApplyOps(policy, a + b) == LP.ApplyOps(LP.ApplyOps(policy, a), b)
    decreases |b|
  {
    hide LP.ApplyOp;
    if b == [] {
      assert a + b == a;
    } else {
      ApplyOpsConcat(policy, a, b[..|b| - 1]);
      assert (a + b)[..|a + b| - 1] == a + b[..|b| - 1];
    }
  }

  lemma ApplyOne(policy: LeaderPolicy, op: LP.PolicyOp)
    ensures LP.ApplyOps(policy, [op]) == LP.ApplyOp(policy, op)
  {
    assert [op][..0] == [];
  }

  lemma {:induction false} Irrelevant(nr: EpochNr, table: Table, events: seq<Event>)
    requires Outcomes(table) && forall e | e in events :: !e.DeliverCert? && !e.NewAvailability?
    ensures EventOps(nr, table, events) == []
    decreases |events|
  {
    if events != [] {
      Irrelevant(nr, table, events[..|events| - 1]);
      assert events[|events| - 1] in events;
    }
  }

  /** The policy after a step is the policy before it with what the events mean applied, and the log still comes from
      the table. */
  ghost predicate Replays(policy: LeaderPolicy, nr: EpochNr, table: Table, o: Outcome)
    requires Outcomes(table)
  {
    o.Ok? ==> o.s.policy == LP.ApplyOps(policy, EventOps(nr, table, o.out)) && LogFrom(o.s.commitLog, table)
  }

  lemma AdvanceReplays(p: Params, s: State, choose: Chooser, table: Table)
    requires s.nextNewMembership.Some? && Outcomes(table) && LogFrom(s.commitLog, table)
    ensures Replays(s.policy, s.epoch.nr, table, AdvanceEpoch(p, s, choose))
  {
    hide SegmentsOf, EpochLen, EventOps, LP.Reconfigure, LogFrom, Outcomes, LP.ApplyOps;
    var o := AdvanceEpoch(p, s, choose);
    if o.Ok? {
      var memberships := s.memberships[1..] + [s.nextNewMembership.value];
      var nr, m := s.epoch.nr + 1, memberships[0];
      var before, change := [NewEpoch(nr)], [NewAvailability(nr, m)];
      var after := o.out[2..];
      assert o.out == before + (change + after);
      Irrelevant(s.epoch.nr, table, before);
      Irrelevant(s.epoch.nr, table, after);
      OneEvent(s.epoch.nr, table, change[0]);
      EventOpsConcat(s.epoch.nr, table, change, after);
      EventOpsConcat(s.epoch.nr, table, before, change + after);
      assert [] + ([LP.ChangeMembership(m)] + []) == [LP.ChangeMembership(m)];
      ApplyOne(s.policy, LP.ChangeMembership(m));
    }
  }

  lemma OneEvent(nr: EpochNr, table: Table, e: Event)
    requires Outcomes(table)
    ensures EventOps(nr, table, [e]) == OpsOf(nr, table, e)
  {
    assert [e][..0] == [];
  }

  /** Delivering a run of entries suspects exactly the leaders blamed by the events. */
  lemma {:induction false} CertsReplay(
      policy: LeaderPolicy, nr: EpochNr, log: map<SeqNr, Entry>, next: SeqNr, table: Table)
    requires Outcomes(table) && LogFrom(log, table)
    ensures
      var entries := Iss.Run(log, next);
      SuspectAll(policy, nr, entries) == LP.ApplyOps(policy, EventOps(nr, table, CertEvents(entries, next)))
    decreases |log|
  {
    hide LP.Suspect, EventOps, LP.ApplyOps, Outcomes;
    if next in log {
      var entries, rest := Iss.Run(log, next), Iss.Run(log - {next}, next + 1);
      var first, others := CertEvent(entries[0], next), CertEvents(rest, next + 1);
      assert entries[1..] == rest;
      EventOpsConcat(nr, table, [first], others);
      OneEvent(nr, table, first);
      ApplyOpsConcat(policy, OpsOf(nr, table, first), EventOps(nr, table, others));
      BlamedOne(policy, nr, table, entries[0], next);
      var policy1 := if entries[0].aborted then LP.Suspect(policy, nr, entries[0].suspect) else policy;
      CertsReplay(policy1, nr, log - {next}, next + 1, table);
    } else {
      NothingDelivered(policy, nr, table);
    }
  }

  lemma NothingDelivered(policy: LeaderPolicy, nr: EpochNr, table: Table)
    requires Outcomes(table)
    ensures EventOps(nr, table, []) == [] && LP.ApplyOps(policy, []) == policy
  {}

  lemma BlamedOne(policy: LeaderPolicy, nr: EpochNr, table: Table, e: Entry, sn: SeqNr)
    requires Outcomes(table) && sn in table && e == EntryOf(table[sn])
    ensures LP.ApplyOps(policy, OpsOf(nr, table, CertEvent(e, sn))) ==
              if e.aborted then LP.Suspect(policy, nr, e.suspect) else policy
  {
    hide LP.Suspect;
    if e.aborted {
      ApplyOne(policy, LP.SuspectNode(nr, e.suspect));
    }
  }

  lemma ProcessReplays(p: Params, s: State, choose: Chooser, table: Table)
    requires Outcomes(table) && LogFrom(s.commitLog, table)
    ensures Replays(s.policy, s.epoch.nr, table, ProcessCommitted(p, s, choose))
  {
    hide AdvanceEpoch, CertEvents, Readable, Iss.Run, SuspectAll, EventOps, LP.ApplyOps, Outcomes;
    NothingDelivered(s.policy, s.epoch.nr, table);
    if HasEpochCheckpoint(s) {
      CertsReplay(s.policy, s.epoch.nr, s.commitLog, s.nextDeliveredSN, table);
      var d, certs := Drained(s), CertEvents(Iss.Run(s.commitLog, s.nextDeliveredSN), s.nextDeliveredSN);
      if EpochFinished(d) {
        AdvanceReplays(p, d, choose, table);
        if AdvanceEpoch(p, d, choose).Ok? {
          var out := AdvanceEpoch(p, d, choose).out;
          EventOpsConcat(s.epoch.nr, table, certs, out);
          ApplyOpsConcat(s.policy, EventOps(s.epoch.nr, table, certs), EventOps(s.epoch.nr, table, out));
        }
      }
    }
  }

  /** Handling an outcome. */
  lemma InsertReplays(p: Params, s: State, i: Input, choose: Chooser, table: Table)
    requires Outcomes(table) && LogFrom(s.commitLog, table) && IssOrder.OutcomeOf(i).Some?
    ensures
      var s1 := if Unusable(i) then s.(policy := LP.Suspect(s.policy, s.epoch.nr, i.leader)) else s;
      && Outcomes(TableAfter(table, i))
      && Step(p, s, i, choose) == Insert(p, s1, i.sn, EntryOf(i), choose)
      && Replays(s1.policy, s.epoch.nr, TableAfter(table, i), Step(p, s, i, choose))
  {
    hide ProcessCommitted, LP.Suspect, EventOps, LP.ApplyOps;
    var s1 := if Unusable(i) then s.(policy := LP.Suspect(s.policy, s.epoch.nr, i.leader)) else s;
    ProcessReplays(p, s1.(commitLog := s1.commitLog[i.sn := EntryOf(i)]), choose, TableAfter(table, i));
  }

  lemma CommonReplays(p: Params, s: State, chkp: StableCheckpoint, choose: Chooser, table: Table)
    requires Outcomes(table) && LogFrom(s.commitLog, table)
    ensures Replays(s.policy, s.epoch.nr, table, OnCommonCheckpoint(p, s, Some(chkp), choose))
  {
    hide ProcessCommitted, EventOps, LP.ApplyOps, Outcomes, LogFrom;
    NothingDelivered(s.policy, s.epoch.nr, table);
    var o := ProcessCommitted(p, s.(lastStable := chkp), choose);
    if chkp.sn > s.lastStable.sn && o.Ok? {
      ProcessReplays(p, s.(lastStable := chkp), choose, table);
      var first, last, nr := [StableChkp(chkp)], Prune(p, chkp.Epoch()), s.epoch.nr;
      Irrelevant(nr, table, first);
      Irrelevant(nr, table, last);
      EventOpsConcat(nr, table, first, o.out);
      EventOpsConcat(nr, table, first + o.out, last);
      assert [] + EventOps(nr, table, o.out) + [] == EventOps(nr, table, o.out);
    }
  }

  ghost predicate StepReplay(policy: LeaderPolicy, nr: EpochNr, table: Table, i: Input, o: Outcome)
    requires Outcomes(table)
  {
    o.Ok? ==> o.s.policy == LP.ApplyOps(policy, StepOps(nr, table, i, o.out)) && LogFrom(o.s.commitLog, table)
  }

  lemma StepReplays(p: Params, s: State, i: Input, choose: Chooser, table: Table)
    requires Outcomes(table) && LogFrom(s.commitLog, table) && !Installs(s, i)
    ensures Outcomes(TableAfter(table, i))
    ensures StepReplay(s.policy, s.epoch.nr, TableAfter(table, i), i, Step(p, s, i, choose))
  {
    var table1, nr, o := TableAfter(table, i), s.epoch.nr, Step(p, s, i, choose);
    if IssOrder.OutcomeOf(i).Some? {
      InsertReplays(p, s, i, choose, table);
      hide Step, Insert, EventOps, LP.ApplyOps, LP.Suspect, LogFrom, Outcomes;
      if o.Ok? {
        if Unusable(i) {
          var op := LP.SuspectNode(nr, i.leader);
          ApplyOne(s.policy, op);
          ApplyOpsConcat(s.policy, [op], EventOps(nr, table1, o.out));
        } else {
          assert [] + EventOps(nr, table1, o.out) == EventOps(nr, table1, o.out);
        }
      }
    } else {
      hide ProcessCommitted, AdvanceEpoch, OnCommonCheckpoint, EventOps, LP.ApplyOps, LogFrom, Outcomes, Sorted;
      assert Replays(s.policy, nr, table, o) by {
        OtherReplays(p, s, i, choose, table);
      }
      if o.Ok? {
        assert [] + EventOps(nr, table1, o.out) == EventOps(nr, table1, o.out);
      }
    }
  }

  lemma OtherReplays(p: Params, s: State, i: Input, choose: Chooser, table: Table)
    requires Outcomes(table) && LogFrom(s.commitLog, table) && !Installs(s, i) && IssOrder.OutcomeOf(i).None?
    ensures Replays(s.policy, s.epoch.nr, table, Step(p, s, i, choose))
  {
    hide AdvanceEpoch, OnCommonCheckpoint, EventOps, LP.ApplyOps, LogFrom, Outcomes, Sorted;
    NothingDelivered(s.policy, s.epoch.nr, table);
    match i
    case SbCheckpoint(common) =>
      if common.Some? {
        CommonReplays(p, s, common.value, choose, table);
      } else {
        NoCheckpoint(p, s, choose);
      }
    case NewConfig(epochNr, m) =>
      AdvanceReplays(p, s.(nextNewMembership := Some(m)), choose, table);
    case CertVerified(_, _, _, _) =>
    case _ =>
      if Step(p, s, i, choose).Ok? {
        Irrelevant(s.epoch.nr, table, Step(p, s, i, choose).out);
      }
  }

  lemma NoCheckpoint(p: Params, s: State, choose: Chooser)
    ensures OnCommonCheckpoint(p, s, None, choose) == Error
  {}

  // ---------------------------------------------------------------- suspicions over runs

  /** The latest outcomes and the operations on the policy since the last restore. */
  datatype Record = Record(table: Table, ops: seq<LP.PolicyOp>)

  ghost function RecordAfter(p: Params, h: History, move: Move, r: Record): Record {
    var table := TableAfter(r.table, move.input);
    var o := Step(p, h.s, move.input, move.choose);
    if !o.Ok? || !Outcomes(table) || Installs(h.s, move.input) then Record(map[], [])
    else Record(table, r.ops + StepOps(h.s.epoch.nr, table, move.input, o.out))
  }

  ghost function RecordOf(p: Params, start: StableCheckpoint, choose: Chooser, moves: seq<Move>): Record {
    if moves == [] then Record(map[], [])
    else
      var init := moves[..|moves| - 1];
      match Play(p, start, choose, init)
      case None => Record(map[], [])
      case Some(h) => RecordAfter(p, h, moves[|moves| - 1], RecordOf(p, start, choose, init))
  }

  /** The leader policy the node last restored. */
  ghost predicate Restored(trace: seq<Event>, policy: LeaderPolicy) {
    LastRestored(trace).Some? && LastRestored(trace).value.snapshot.epochData.leaderPolicy == Encoded(policy)
  }

  lemma {:induction false} RestoredConcat(a: seq<Event>, b: seq<Event>)
    requires NoRestore(b)
    ensures LastRestored(a + b) == LastRestored(a)
    decreases |b|
  {
    if b == [] {
      assert a + b == a;
    } else {
      RestoredConcat(a, b[..|b| - 1]);
      assert (a + b)[..|a + b| - 1] == a + b[..|b| - 1];
      assert b[|b| - 1] in b;
    }
  }

  lemma ProcessRestoresNothing(p: Params, s: State, choose: Chooser)
    ensures ProcessCommitted(p, s, choose).Ok? ==> NoRestore(ProcessCommitted(p, s, choose).out)
  {
    hide SegmentsOf, EpochLen, LP.Reconfigure, CertEvents, Readable, Iss.Run, SuspectAll, Without;
    CertsCreateNothing(Iss.Run(s.commitLog, s.nextDeliveredSN), s.nextDeliveredSN);
  }

  lemma StepRestoresNothing(p: Params, s: State, i: Input, choose: Chooser)
    requires !Installs(s, i)
    ensures Step(p, s, i, choose).Ok? ==> NoRestore(Step(p, s, i, choose).out)
  {
    hide ProcessCommitted, LP.Suspect, Sorted, SegmentsOf, EpochLen, LP.Reconfigure;
    match i
    case SbDeliver(sn, data, aborted, leader) =>
      var policy := LP.Suspect(s.policy, s.epoch.nr, leader);
      ProcessRestoresNothing(p, s.(commitLog := s.commitLog[sn := Entry(data, true, leader)]), choose);
      ProcessRestoresNothing(
        p, s.(policy := policy, commitLog := s.commitLog[sn := Entry(EMPTY, true, leader)]), choose);
    case CertVerified(valid, sn, data, leader) =>
      var policy := LP.Suspect(s.policy, s.epoch.nr, leader);
      ProcessRestoresNothing(p, s.(commitLog := s.commitLog[sn := Entry(data, false, leader)]), choose);
      ProcessRestoresNothing(
        p, s.(policy := policy, commitLog := s.commitLog[sn := Entry(EMPTY, true, leader)]), choose);
    case SbCheckpoint(common) =>
      if common.Some? {
        ProcessRestoresNothing(p, s.(lastStable := common.value), choose);
      }
    case _ =>
  }

  /** Installing restores the checkpoint's policy, with an empty log. */
  lemma InstallReplaces(p: Params, s: State, i: Input, choose: Chooser, trace: seq<Event>)
    requires Installs(s, i) && Step(p, s, i, choose).Ok?
    ensures
      var o := Step(p, s, i, choose);
      Restored(trace + o.out, o.s.policy) && o.s.commitLog == map[]
  {
    hide SegmentsOf, EpochLen;
    var o := Step(p, s, i, choose);
    var rest := o.out[1..];
    assert o.out == [RestoreState(i.chkp)] + rest;
    assert trace + o.out == (trace + [RestoreState(i.chkp)]) + rest;
    RestoredConcat(trace + [RestoreState(i.chkp)], rest);
  }

  lemma BeginRestores(p: Params, start: StableCheckpoint, choose: Chooser)
    requires Begin(p, start, choose).Some?
    ensures
      var h := Begin(p, start, choose).value;
      Restored(h.trace, h.s.policy) && h.s.commitLog == map[]
  {
    hide SegmentsOf, EpochLen;
    var h := Begin(p, start, choose).value;
    var rest := h.trace[1..];
    assert h.trace == [RestoreState(start)] + rest;
    RestoredConcat([RestoreState(start)], rest);
    assert [RestoreState(start)][..0] == [];
  }

  /** In every run, the leader policy is the restored one with the recorded suspicions and memberships applied. */
  lemma {:induction false} PolicyIsReplayed(
      p: Params, start: StableCheckpoint, choose: Chooser, moves: seq<Move>, h: History)
    returns (restored: LeaderPolicy)
    requires Plays(p, start, choose, moves, h)
    ensures
      var r := RecordOf(p, start, choose, moves);
      && Outcomes(r.table) && LogFrom(h.s.commitLog, r.table)
      && Restored(h.trace, restored) && h.s.policy == LP.ApplyOps(restored, r.ops)
    decreases |moves|
  {
    hide Step, Begin, LP.ApplyOps, Outcomes, LogFrom, Restored, StepOps, TableAfter;
    assert Outcomes(map[]) && LogFrom(map[], map[]) by {
      NothingRecorded();
    }
    if moves == [] {
      BeginRestores(p, start, choose);
      restored := h.s.policy;
      ReplayNothing(restored);
    } else {
      var init, last := moves[..|moves| - 1], moves[|moves| - 1];
      var h0 := Play(p, start, choose, init).value;
      restored := PolicyIsReplayed(p, start, choose, init, h0);
      var r := RecordOf(p, start, choose, init);
      var o := Step(p, h0.s, last.input, last.choose);
      if Installs(h0.s, last.input) {
        InstallReplaces(p, h0.s, last.input, last.choose, h0.trace);
        restored := o.s.policy;
        ReplayNothing(restored);
      } else {
        StepReplays(p, h0.s, last.input, last.choose, r.table);
        var table := TableAfter(r.table, last.input);
        ApplyOpsConcat(restored, r.ops, StepOps(h0.s.epoch.nr, table, last.input, o.out));
        StepRestoresNothing(p, h0.s, last.input, last.choose);
        StillRestored(h0.trace, o.out, restored);
      }
    }
  }

  lemma NothingRecorded()
    ensures Outcomes(map[]) && LogFrom(map[], map[])
  {}

  lemma ReplayNothing(policy: LeaderPolicy)
    ensures LP.ApplyOps(policy, []) == policy
  {}

  lemma StillRestored(a: seq<Event>, b: seq<Event>, policy: LeaderPolicy)
    requires Restored(a, policy) && NoRestore(b)
    ensures Restored(a + b, policy)
  {
    RestoredConcat(a, b);
  }

  /** In every run under the blacklist policy: suspected are exactly the nodes that were blamed, as members, since the
      last restore, or suspected in the restored policy, and have been in every new membership since. */
  lemma SuspectsAreBlamed(p: Params, start: StableCheckpoint, choose: Chooser, moves: seq<Move>, h: History)
    returns (restored: LeaderPolicy)
    requires Plays(p, start, choose, moves, h)
    ensures Restored(h.trace, restored)
    ensures restored.Blacklist? ==>
      var ops := RecordOf(p, start, choose, moves).ops;
      && h.s.policy.Blacklist?
      && h.s.policy.membership == LP.CurrentMembers(restored.membership, ops)
      && forall n :: n in h.s.policy.suspected <==> LP.SuspectedSince(restored.membership, restored.suspected, ops, n)
  {
    hide Plays, RecordOf, LP.ApplyOps, LP.SuspectedSince, LP.CurrentMembers, LogFrom, Restored;
    restored := PolicyIsReplayed(p, start, choose, moves, h);
    if restored.Blacklist? {
      LP.ReplaySuspects(restored.membership, restored.suspected, RecordOf(p, start, choose, moves).ops);
    }
  }

  // ---------------------------------------------------------------- who is blamed

  /** Some move of the run brought a bad outcome of this leader. */
  ghost predicate Earned(moves: seq<Move>, n: NodeId) {
    exists k | 0 <= k < |moves| :: Bad(moves[k].input) && moves[k].input.leader == n
  }

  ghost predicate FromMoves(table: Table, moves: seq<Move>) {
    forall sn | sn in table :: exists k | 0 <= k < |moves| :: moves[k].input == table[sn]
  }

  ghost predicate AllEarned(ops: seq<LP.PolicyOp>, moves: seq<Move>) {
    forall op | op in ops && op.SuspectNode? :: Earned(moves, op.node)
  }

  lemma EarnedLater(moves: seq<Move>, last: Move, n: NodeId)
    requires Earned(moves, n)
    ensures Earned(moves + [last], n)
  {
    var k :| 0 <= k < |moves| && Bad(moves[k].input) && moves[k].input.leader == n;
    assert (moves + [last])[k] == moves[k];
  }

  lemma TableLater(table: Table, moves: seq<Move>, last: Move)
    requires FromMoves(table, moves)
    ensures FromMoves(TableAfter(table, last.input), moves + [last])
  {
    var all, table1 := moves + [last], TableAfter(table, last.input);
    forall sn | sn in table1 ensures exists k | 0 <= k < |all| :: all[k].input == table1[sn] {
      if IssOrder.OutcomeOf(last.input).Some? && IssOrder.OutcomeOf(last.input).value.0 == sn {
        assert all[|moves|].input == table1[sn];
      } else {
        var k :| 0 <= k < |moves| && moves[k].input == table[sn];
        assert all[k] == moves[k];
      }
    }
  }

  /** The events of a step deliver nothing only where the table has a bad outcome. */
  ghost predicate Blames(table: Table, events: seq<Event>) {
    forall e | e in events && e.DeliverCert? && e.cert.None? :: e.sn in table && Bad(table[e.sn])
  }

  lemma {:induction false} CertsBlame(log: map<SeqNr, Entry>, next: SeqNr, table: Table)
    requires Outcomes(table) && LogFrom(log, table)
    ensures Blames(table, CertEvents(Iss.Run(log, next), next))
    decreases |log|
  {
    if next in log {
      var run, rest := Iss.Run(log, next), Iss.Run(log - {next}, next + 1);
      CertsBlame(log - {next}, next + 1, table);
      assert run[1..] == rest;
      assert CertEvents(run, next) == [CertEvent(log[next], next)] + CertEvents(rest, next + 1);
    } else {
      assert CertEvents(Iss.Run(log, next), next) == [];
    }
  }

  lemma ProcessBlames(p: Params, s: State, choose: Chooser, table: Table)
    requires Outcomes(table) && LogFrom(s.commitLog, table)
    ensures ProcessCommitted(p, s, choose).Ok? ==> Blames(table, ProcessCommitted(p, s, choose).out)
  {
    hide SegmentsOf, EpochLen, LP.Reconfigure, CertEvents, Readable, Iss.Run, SuspectAll, Without, Outcomes, LogFrom;
    CertsBlame(s.commitLog, s.nextDeliveredSN, table);
  }

  lemma StepBlames(p: Params, s: State, i: Input, choose: Chooser, table: Table)
    requires Outcomes(table) && LogFrom(s.commitLog, table) && !Installs(s, i) && Step(p, s, i, choose).Ok?
    ensures Blames(TableAfter(table, i), Step(p, s, i, choose).out)
  {
    hide ProcessCommitted, LP.Suspect, Sorted, SegmentsOf, EpochLen, LP.Reconfigure;
    var table1 := TableAfter(table, i);
    if IssOrder.OutcomeOf(i).Some? {
      InsertReplays(p, s, i, choose, table);
      var s1 := if Unusable(i) then s.(policy := LP.Suspect(s.policy, s.epoch.nr, i.leader)) else s;
      ProcessBlames(p, s1.(commitLog := s.commitLog[i.sn := EntryOf(i)]), choose, table1);
    } else if i.SbCheckpoint? && i.common.Some? {
      ProcessBlames(p, s.(lastStable := i.common.value), choose, table);
    }
  }

  lemma {:induction false} EventOpsEarned(nr: EpochNr, table: Table, events: seq<Event>, moves: seq<Move>)
    requires Outcomes(table) && Blames(table, events) && FromMoves(table, moves)
    ensures AllEarned(EventOps(nr, table, events), moves)
    decreases |events|
  {
    if events != [] {
      var init, e := events[..|events| - 1], events[|events| - 1];
      assert e in events;
      EventOpsEarned(nr, table, init, moves);
      if e.DeliverCert? && e.cert.None? && e.sn in table {
        var k :| 0 <= k < |moves| && moves[k].input == table[e.sn];
        assert Earned(moves, table[e.sn].leader);
      }
    }
  }

  /** Nobody is blamed for nothing: every recorded suspicion is of the leader of an aborted, undecodable or invalid
      outcome that the run brought. */
  lemma {:induction false} BlameIsEarned(
      p: Params, start: StableCheckpoint, choose: Chooser, moves: seq<Move>, h: History)
    requires Plays(p, start, choose, moves, h)
    ensures AllEarned(RecordOf(p, start, choose, moves).ops, moves)
    ensures FromMoves(RecordOf(p, start, choose, moves).table, moves)
    decreases |moves|
  {
    hide Step, Begin, Earned, FromMoves, EventOps, Blames, TableAfter;
    if moves == [] {
      NothingEarned(moves);
    } else {
      var init, last := moves[..|moves| - 1], moves[|moves| - 1];
      assert moves == init + [last];
      var h0 := Play(p, start, choose, init).value;
      BlameIsEarned(p, start, choose, init, h0);
      var r := RecordOf(p, start, choose, init);
      if Installs(h0.s, last.input) {
        NothingEarned(moves);
      } else {
        var _ := PolicyIsReplayed(p, start, choose, init, h0);
        StepEarned(p, h0, last, r, init);
      }
    }
  }

  lemma NothingEarned(moves: seq<Move>)
    ensures AllEarned([], moves) && FromMoves(map[], moves)
  {}

  lemma StepEarned(p: Params, h: History, last: Move, r: Record, moves: seq<Move>)
    requires Outcomes(r.table) && LogFrom(h.s.commitLog, r.table) && !Installs(h.s, last.input)
    requires Step(p, h.s, last.input, last.choose).Ok?
    requires AllEarned(r.ops, moves) && FromMoves(r.table, moves)
    ensures AllEarned(RecordAfter(p, h, last, r).ops, moves + [last])
    ensures FromMoves(RecordAfter(p, h, last, r).table, moves + [last])
  {
    hide Step, FromMoves, EventOps, Blames, TableAfter, Outcomes, LogFrom, Bad, Unusable;
    var all, table := moves + [last], TableAfter(r.table, last.input);
    var o := Step(p, h.s, last.input, last.choose);
    StepReplays(p, h.s, last.input, last.choose, r.table);
    StepBlames(p, h.s, last.input, last.choose, r.table);
    TableLater(r.table, moves, last);
    EventOpsEarned(h.s.epoch.nr, table, o.out, all);
    forall op | op in r.ops && op.SuspectNode? ensures Earned(all, op.node) {
      EarnedLater(moves, last, op.node);
    }
    if Unusable(last.input) {
      UnusableEarns(moves, last);
    }
  }

  lemma UnusableEarns(moves: seq<Move>, last: Move)
    requires Unusable(last.input)
    ensures Earned(moves + [last], last.input.leader)
  {
    assert (moves + [last])[|moves|] == last;
  }

  lemma {:induction false} EventIsRecorded(nr: EpochNr, table: Table, events: seq<Event>, e: Event)
    requires Outcomes(table) && e in events
    ensures forall op | op in OpsOf(nr, table, e) :: op in EventOps(nr, table, events)
    decreases |events|
  {
    hide OpsOf;
    if events[|events| - 1] != e {
      assert events == events[..|events| - 1] + [events[|events| - 1]];
      EventIsRecorded(nr, table, events[..|events| - 1], e);
    }
  }

  /** Nobody gets away: the leader of an undecodable or invalid outcome is recorded when it arrives, and that of the
      bad outcome behind every delivery of nothing when that is delivered. */
  lemma BadOutcomesAreBlamed(
      p: Params, start: StableCheckpoint, choose: Chooser, moves: seq<Move>, h: History, last: Move)
    requires Plays(p, start, choose, moves, h) && !Installs(h.s, last.input)
    requires Step(p, h.s, last.input, last.choose).Ok?
    ensures
      var r, nr := RecordOf(p, start, choose, moves + [last]), h.s.epoch.nr;
      && (Unusable(last.input) ==> LP.SuspectNode(nr, last.input.leader) in r.ops)
      && (forall e | e in Step(p, h.s, last.input, last.choose).out && e.DeliverCert? && e.cert.None? ::
            e.sn in r.table && Bad(r.table[e.sn]) && LP.SuspectNode(nr, r.table[e.sn].leader) in r.ops)
  {
    hide Step, Begin, TableAfter, Outcomes, LogFrom, EventOps;
    var all, r0, nr := moves + [last], RecordOf(p, start, choose, moves), h.s.epoch.nr;
    assert all[..|all| - 1] == moves;
    var _ := PolicyIsReplayed(p, start, choose, moves, h);
    StepReplays(p, h.s, last.input, last.choose, r0.table);
    StepBlames(p, h.s, last.input, last.choose, r0.table);
    var table, out := TableAfter(r0.table, last.input), Step(p, h.s, last.input, last.choose).out;
    forall e | e in out && e.DeliverCert? && e.cert.None?
      ensures LP.SuspectNode(nr, table[e.sn].leader) in EventOps(nr, table, out)
    {
      EventIsRecorded(nr, table, out, e);
      assert OpsOf(nr, table, e)[0] == LP.SuspectNode(nr, table[e.sn].leader);
    }
  }
}
