/** What holds in every run of the ISS module: the application sees gap-free deliveries, each epoch's
    checkpoint before its certificates, and complete epochs only; memberships take effect on schedule. */
module IssRuns {
  import opened Quorums
  import opened Types
  import opened Segments
  import opened Iss
  import LP = LeaderPolicies
  import SortedKeys

  // ---------------------------------------------------------------- the protocol the application sees

  /** What an observer of the emitted events alone can track. */
  datatype View =
    | Start
    | Restored(epoch: EpochNr, sn: SeqNr)
    | Running(epoch: EpochNr, first: SeqNr, next: SeqNr, end: SeqNr, chkp: SeqNr)
    | Violation

  /** An epoch starts after a restore, or as the next one once the previous is fully delivered and a
      checkpoint at its first sequence number was the last one announced. A certificate is delivered only
      at the next sequence number, and with such a checkpoint announced last. */
  function See(v: View, e: Event): View {
    match e
    case RestoreState(c) => if v.Violation? then v else Restored(c.Epoch(), c.sn)
    case NewEpoch(nr) =>
      if v.Restored? && nr == v.epoch then Running(nr, v.sn, v.sn, v.sn, v.sn)
      else if v.Running? && nr == v.epoch + 1 && v.next == v.end && v.chkp == v.first then
        Running(nr, v.end, v.end, v.end, v.chkp)
      else Violation
    case NewOrderer(nr, _, segment) =>
      if v.Running? && nr == v.epoch then v.(end := v.end + |segment.seqNrs|) else Violation
    case DeliverCert(sn, _) =>
      if v.Running? && sn == v.next && v.chkp == v.first then v.(next := sn + 1) else Violation
    case StableChkp(c) =>
      if v.Running? && c.sn >= v.chkp then v.(chkp := c.sn) else Violation
    case _ => if v.Running? then v else Violation
  }

  function SeeAll(v: View, events: seq<Event>): View {
    if events == [] then v else See(SeeAll(v, events[..|events| - 1]), events[|events| - 1])
  }

  lemma {:induction false} SeeConcat(v: View, a: seq<Event>, b: seq<Event>)
    ensures SeeAll(v, a + b) == SeeAll(SeeAll(v, a), b)
    decreases |b|
  {
    if b == [] {
      assert a + b == a;
    } else {
      SeeConcat(v, a, b[..|b| - 1]);
      assert (a + b)[..|a + b| - 1] == a + b[..|b| - 1];
    }
  }

  lemma SeeOne(v: View, e: Event)
    ensures SeeAll(v, [e]) == See(v, e)
  {
    assert [e][..0] == [];
  }

  /** Events that say nothing about epochs, deliveries and checkpoints. */
  predicate Neutral(e: Event) {
    !e.RestoreState? && !e.NewEpoch? && !e.NewOrderer? && !e.DeliverCert? && !e.StableChkp?
  }

  lemma {:induction false} SeeNeutral(v: View, events: seq<Event>)
    requires v.Running? && forall e | e in events :: Neutral(e)
    ensures SeeAll(v, events) == v
    decreases |events|
  {
    if events != [] {
      SeeNeutral(v, events[..|events| - 1]);
      assert events[|events| - 1] in events;
    }
  }

  function ViewOf(s: State): View {
    Running(s.epoch.nr, s.epoch.firstSN, s.nextDeliveredSN, s.newEpochSN, s.lastStable.sn)
  }

  ghost predicate LogBelow(s: State) {
    forall sn | sn in s.commitLog :: sn < s.newEpochSN
  }

  ghost predicate Bounded(s: State) {
    s.epoch.firstSN <= s.nextDeliveredSN <= s.newEpochSN && LogBelow(s)
  }

  // ---------------------------------------------------------------- steps refine the view

  lemma {:induction false} SeeOrderers(v: View, nr: EpochNr, segments: seq<Segment>)
    requires v.Running? && v.epoch == nr
    ensures SeeAll(v, OrdererEvents(nr, segments)) == v.(end := v.end + EpochLen(segments))
    decreases |segments|
  {
    if segments != [] {
      var init := segments[..|segments| - 1];
      SeeOrderers(v, nr, init);
      var events := OrdererEvents(nr, segments);
      assert events[..|events| - 1] == OrdererEvents(nr, init);
    }
  }

  /** Starting an epoch from a view that allows it. */
  lemma StartEpochSeen(p: Params, s: State, nr: EpochNr, leaders: seq<NodeId>, v: View)
    requires StartEpoch(p, s, nr, leaders).Ok?
    requires See(v, NewEpoch(nr)) == Running(nr, s.newEpochSN, s.nextDeliveredSN, s.newEpochSN, s.lastStable.sn)
    ensures SeeAll(v, StartEpoch(p, s, nr, leaders).out) == ViewOf(StartEpoch(p, s, nr, leaders).s)
  {
    hide SeeAll, OrdererEvents, EpochLen, SegmentsOf;
    var m := s.memberships[0];
    var segments := SegmentsOf(leaders, m, s.nextDeliveredSN, p.segmentLength);
    var first, rest := [NewEpoch(nr)], [NewAvailability(nr, m), ComputeCert(nr)];
    assert [NewEpoch(nr), NewAvailability(nr, m), ComputeCert(nr)] == first + rest;
    SeeConcat(v, first + rest, OrdererEvents(nr, segments));
    SeeConcat(v, first, rest);
    SeeOne(v, first[0]);
    SeeNeutral(See(v, first[0]), rest);
    SeeOrderers(See(v, NewEpoch(nr)), nr, segments);
  }

  lemma {:induction false} RunBound(log: map<SeqNr, Entry>, next: SeqNr, end: SeqNr)
    requires next <= end && forall sn | sn in log :: sn < end
    ensures next + |Iss.Run(log, next)| <= end
    decreases |log|
  {
    if next in log {
      RunBound(log - {next}, next + 1, end);
    }
  }

  lemma {:induction false} SeeCerts(v: View, entries: seq<Entry>, next: SeqNr)
    requires v.Running? && v.next == next && v.chkp == v.first
    ensures SeeAll(v, CertEvents(entries, next)) == v.(next := next + |entries|)
    decreases |entries|
  {
    if entries != [] {
      hide SeeAll;
      var e := CertEvent(entries[0], next);
      SeeConcat(v, [e], CertEvents(entries[1..], next + 1));
      SeeOne(v, e);
      SeeCerts(See(v, e), entries[1..], next + 1);
    } else {
      assert CertEvents(entries, next) == [];
    }
  }

  lemma DrainSeen(s: State)
    requires HasEpochCheckpoint(s)
    ensures
      var entries := Iss.Run(s.commitLog, s.nextDeliveredSN);
      SeeAll(ViewOf(s), CertEvents(entries, s.nextDeliveredSN)) == ViewOf(Drained(s))
  {
    SeeCerts(ViewOf(s), Iss.Run(s.commitLog, s.nextDeliveredSN), s.nextDeliveredSN);
  }

  lemma AdvanceSeen(p: Params, s: State, choose: Chooser)
    requires EpochFinished(s) && AdvanceEpoch(p, s, choose).Ok?
    ensures
      var o := AdvanceEpoch(p, s, choose);
      SeeAll(ViewOf(s), o.out) == ViewOf(o.s)
  {
    hide SeeAll, OrdererEvents, EpochLen, SegmentsOf, LP.Reconfigure;
    var memberships := s.memberships[1..] + [s.nextNewMembership.value];
    var policy := LP.Reconfigure(s.policy, memberships[0]);
    var s1 := s.(memberships := memberships, nextNewMembership := None, policy := policy);
    var nr := s.epoch.nr + 1;
    StartEpochSeen(p, s1, nr, choose(policy), ViewOf(s));
    var o1 := StartEpoch(p, s1, nr, choose(policy));
    var last := [NewChkpInstance(ChkpParams(p, o1.s, s.memberships[0])), SnapshotRequest(nr)];
    SeeConcat(ViewOf(s), o1.out, last);
    SeeNeutral(ViewOf(o1.s), last);
  }

  lemma ProcessSeen(p: Params, s: State, choose: Chooser)
    requires ProcessCommitted(p, s, choose).Ok?
    ensures
      var o := ProcessCommitted(p, s, choose);
      SeeAll(ViewOf(s), o.out) == ViewOf(o.s)
  {
    hide SeeAll, Drained, CertEvents, AdvanceEpoch, Iss.Run, Readable;
    if HasEpochCheckpoint(s) {
      DrainSeen(s);
      var d := Drained(s);
      if EpochFinished(d) {
        AdvanceSeen(p, d, choose);
        var entries := Iss.Run(s.commitLog, s.nextDeliveredSN);
        SeeConcat(ViewOf(s), CertEvents(entries, s.nextDeliveredSN), AdvanceEpoch(p, d, choose).out);
      }
    } else {
      SeeNothing(ViewOf(s));
    }
  }

  lemma SeeNothing(v: View)
    ensures SeeAll(v, []) == v
  {}

  lemma InsertSeen(p: Params, s: State, sn: SeqNr, e: Entry, choose: Chooser)
    requires Insert(p, s, sn, e, choose).Ok?
    ensures
      var o := Insert(p, s, sn, e, choose);
      SeeAll(ViewOf(s), o.out) == ViewOf(o.s)
  {
    hide SeeAll, ProcessCommitted;
    ProcessSeen(p, s.(commitLog := s.commitLog[sn := e]), choose);
  }

  lemma InstallSeen(p: Params, s: State, chkp: StableCheckpoint, policy: LeaderPolicy, choose: Chooser, v: View)
    requires !v.Violation? && Install(p, s, chkp, policy, choose).Ok?
    ensures
      var o := Install(p, s, chkp, policy, choose);
      SeeAll(v, o.out) == ViewOf(o.s)
  {
    hide SeeAll, OrdererEvents, EpochLen, SegmentsOf;
    var s1 := Installed(s, chkp, policy);
    var restore := RestoreState(chkp);
    StartEpochSeen(p, s1, chkp.Epoch(), choose(policy), See(v, restore));
    var o1 := StartEpoch(p, s1, chkp.Epoch(), choose(policy));
    SeeConcat(v, [restore], o1.out);
    SeeOne(v, restore);
    SeeConcat(v, [restore] + o1.out, [StableChkp(chkp)]);
    SeeOne(ViewOf(o1.s), StableChkp(chkp));
    SeeConcat(v, [restore] + o1.out + [StableChkp(chkp)], PruneAll(chkp.Epoch()));
    SeeNeutral(ViewOf(o1.s), PruneAll(chkp.Epoch()));
  }

  lemma CommonCheckpointSeen(p: Params, s: State, chkp: StableCheckpoint, choose: Chooser)
    requires OnCommonCheckpoint(p, s, Some(chkp), choose).Ok?
    ensures
      var o := OnCommonCheckpoint(p, s, Some(chkp), choose);
      SeeAll(ViewOf(s), o.out) == ViewOf(o.s)
  {
    hide SeeAll, ProcessCommitted;
    SeeNothing(ViewOf(s));
    if chkp.sn > s.lastStable.sn {
      var s1 := s.(lastStable := chkp);
      ProcessSeen(p, s1, choose);
      var o1 := ProcessCommitted(p, s1, choose);
      var e := StableChkp(chkp);
      SeeConcat(ViewOf(s), [e], o1.out);
      SeeOne(ViewOf(s), e);
      SeeConcat(ViewOf(s), [e] + o1.out, Prune(p, chkp.Epoch()));
      SeeNeutral(ViewOf(o1.s), Prune(p, chkp.Epoch()));
    }
  }

  ghost predicate Created(trace: seq<Event>, sn: SeqNr) {
    exists e | e in trace :: e.NewOrderer? && sn in e.segment.seqNrs
  }

  predicate Installs(s: State, i: Input) {
    i.CheckpointValidated? && i.ok && FarEnoughAhead(s, i.chkp) && i.chkp.snapshot.epochData.leaderPolicy.Encoded?
  }

  predicate AcceptsMembership(s: State, i: Input) {
    i.NewConfig? && i.epochNr >= s.epoch.nr && s.nextNewMembership.None?
  }

  ghost predicate InRange(s: State, i: Input) {
    i.SbDeliver? || i.CertVerified? ==> i.sn < s.newEpochSN
  }

  lemma StepSeen(p: Params, s: State, i: Input, choose: Chooser)
    requires Step(p, s, i, choose).Ok?
    ensures
      var o := Step(p, s, i, choose);
      SeeAll(ViewOf(s), o.out) == ViewOf(o.s)
  {
    hide SeeAll, Insert, ProcessCommitted, AdvanceEpoch, Install, LP.Suspect, SortedKeys.Sorted;
    SeeNothing(ViewOf(s));
    match i
    case SbDeliver(sn, data, aborted, leader) =>
      if aborted {
        InsertSeen(p, s, sn, Entry(data, true, leader), choose);
      } else if data.Unreadable? {
        InsertSeen(p, s.(policy := LP.Suspect(s.policy, s.epoch.nr, leader)), sn, Entry(EMPTY, true, leader), choose);
      } else {
        SeeOne(ViewOf(s), VerifyCert(s.epoch.nr, sn, data, leader));
      }
    case SbCheckpoint(common) =>
      if common.Some? {
        CommonCheckpointSeen(p, s, common.value, choose);
      }
    case CertVerified(valid, sn, data, leader) =>
      if valid {
        InsertSeen(p, s, sn, Entry(data, false, leader), choose);
      } else {
        InsertSeen(p, s.(policy := LP.Suspect(s.policy, s.epoch.nr, leader)), sn, Entry(EMPTY, true, leader), choose);
      }
    case NewConfig(epochNr, m) =>
      var s1 := s.(nextNewMembership := Some(m));
      if s.nextNewMembership.None? && EpochFinished(s1) && epochNr >= s.epoch.nr {
        AdvanceSeen(p, s1, choose);
      }
    case ProtocolCheckpoint(chkp) =>
      SeeNeutral(ViewOf(s), Step(p, s, i, choose).out);
    case CheckpointReceived(chkp) =>
      SeeOne(ViewOf(s), ValidateCheckpoint(chkp, s.epoch.nr, s.memberships));
    case CheckpointValidated(ok, chkp) =>
      if ok && FarEnoughAhead(s, chkp) && chkp.snapshot.epochData.leaderPolicy.Encoded? {
        InstallSeen(p, s, chkp, chkp.snapshot.epochData.leaderPolicy.policy, choose, ViewOf(s));
      }
  }

  // ---------------------------------------------------------------- segments that were created

  ghost predicate AllBelow(events: seq<Event>, end: SeqNr) {
    forall e, sn | e in events && e.NewOrderer? && sn in e.segment.seqNrs :: sn < end
  }

  lemma AllBelowConcat(a: seq<Event>, b: seq<Event>, lo: SeqNr, end: SeqNr)
    requires AllBelow(a, lo) && lo <= end && AllBelow(b, end)
    ensures AllBelow(a + b, end)
  {}

  lemma {:induction false} CertsCreateNothing(entries: seq<Entry>, next: SeqNr)
    ensures forall e | e in CertEvents(entries, next) :: e.DeliverCert?
    decreases |entries|
  {
    if entries != [] {
      CertsCreateNothing(entries[1..], next + 1);
    }
  }

  lemma StartEpochBelow(p: Params, s: State, nr: EpochNr, leaders: seq<NodeId>)
    requires StartEpoch(p, s, nr, leaders).Ok? && s.nextDeliveredSN == s.newEpochSN
    ensures
      var o := StartEpoch(p, s, nr, leaders);
      AllBelow(o.out, o.s.newEpochSN) && s.newEpochSN <= o.s.newEpochSN && (LogBelow(s) ==> Bounded(o.s))
  {
    var o := StartEpoch(p, s, nr, leaders);
    var m := s.memberships[0];
    var segments := SegmentsOf(leaders, m, s.nextDeliveredSN, p.segmentLength);
    forall e, sn | e in o.out && e.NewOrderer? && sn in e.segment.seqNrs ensures sn < o.s.newEpochSN {
      var events := OrdererEvents(nr, segments);
      assert e in events;
      var i :| 0 <= i < |segments| && events[i] == e;
      assert e.segment == segments[i];
      SegmentHolds(leaders, m, s.nextDeliveredSN, p.segmentLength, i, sn);
      EpochLenIsProduct(leaders, m, s.nextDeliveredSN, p.segmentLength);
    }
  }

  /** Everything stays below the end of the epoch, which moves forward unless a checkpoint starts below it. */
  ghost predicate CreatesBelow(lo: SeqNr, o: Outcome) {
    o.Ok? ==> lo <= o.s.newEpochSN && AllBelow(o.out, o.s.newEpochSN) && Bounded(o.s)
  }

  lemma AdvanceBelow(p: Params, s: State, choose: Chooser)
    requires Bounded(s) && EpochFinished(s)
    ensures CreatesBelow(s.newEpochSN, AdvanceEpoch(p, s, choose))
  {
    hide StartEpoch;
    if AdvanceEpoch(p, s, choose).Ok? {
      var memberships := s.memberships[1..] + [s.nextNewMembership.value];
      var policy := LP.Reconfigure(s.policy, memberships[0]);
      var s1 := s.(memberships := memberships, nextNewMembership := None, policy := policy);
      StartEpochBelow(p, s1, s.epoch.nr + 1, choose(policy));
    }
  }

  lemma DrainBounded(s: State)
    requires Bounded(s)
    ensures Bounded(Drained(s))
  {
    hide SuspectAll, Iss.Run;
    RunBound(s.commitLog, s.nextDeliveredSN, s.newEpochSN);
  }

  lemma ProcessBelow(p: Params, s: State, choose: Chooser)
    requires Bounded(s)
    ensures CreatesBelow(s.newEpochSN, ProcessCommitted(p, s, choose))
  {
    hide AdvanceEpoch, CertEvents, Readable, Iss.Run, Bounded, SuspectAll;
    DrainBounded(s);
    if HasEpochCheckpoint(s) {
      CertsCreateNothing(Iss.Run(s.commitLog, s.nextDeliveredSN), s.nextDeliveredSN);
      if EpochFinished(Drained(s)) {
        AdvanceBelow(p, Drained(s), choose);
      }
    }
  }

  lemma InstallBelow(p: Params, s: State, chkp: StableCheckpoint, policy: LeaderPolicy, choose: Chooser)
    ensures CreatesBelow(chkp.sn, Install(p, s, chkp, policy, choose))
  {
    hide StartEpoch;
    if Install(p, s, chkp, policy, choose).Ok? {
      StartEpochBelow(p, Installed(s, chkp, policy), chkp.Epoch(), choose(policy));
    }
  }

  lemma StepBelow(p: Params, s: State, i: Input, choose: Chooser)
    requires Bounded(s) && InRange(s, i)
    ensures CreatesBelow(if Installs(s, i) then i.chkp.sn else s.newEpochSN, Step(p, s, i, choose))
  {
    hide ProcessCommitted, AdvanceEpoch, Install, LP.Suspect, SortedKeys.Sorted;
    match i
    case SbDeliver(sn, data, aborted, leader) =>
      if aborted {
        ProcessBelow(p, s.(commitLog := s.commitLog[sn := Entry(data, true, leader)]), choose);
      } else if data.Unreadable? {
        ProcessBelow(p, s.(policy := LP.Suspect(s.policy, s.epoch.nr, leader),
                           commitLog := s.commitLog[sn := Entry(EMPTY, true, leader)]), choose);
      }
    case SbCheckpoint(common) =>
      if common.Some? {
        ProcessBelow(p, s.(lastStable := common.value), choose);
      }
    case CertVerified(valid, sn, data, leader) =>
      if valid {
        ProcessBelow(p, s.(commitLog := s.commitLog[sn := Entry(data, false, leader)]), choose);
      } else {
        ProcessBelow(p, s.(policy := LP.Suspect(s.policy, s.epoch.nr, leader),
                           commitLog := s.commitLog[sn := Entry(EMPTY, true, leader)]), choose);
      }
    case NewConfig(epochNr, m) =>
      var s1 := s.(nextNewMembership := Some(m));
      if EpochFinished(s1) {
        AdvanceBelow(p, s1, choose);
      }
    case ProtocolCheckpoint(chkp) =>
    case CheckpointReceived(chkp) =>
    case CheckpointValidated(ok, chkp) =>
      if ok && FarEnoughAhead(s, chkp) && chkp.snapshot.epochData.leaderPolicy.Encoded? {
        InstallBelow(p, s, chkp, chkp.snapshot.epochData.leaderPolicy.policy, choose);
      }
  }

  // ---------------------------------------------------------------- the membership pipeline

  /** The membership of every epoch, as decided so far. A membership announced in epoch e is for epoch
      e + 1 + configOffset; an installed checkpoint brings those of its own epoch and the following ones. */
  type Plan = map<EpochNr, Membership>

  function PlanFrom(nr: EpochNr, ms: seq<Membership>): (plan: Plan)
    ensures forall e :: e in plan <==> nr <= e < nr + |ms|
    ensures forall e | e in plan :: plan[e] == ms[e - nr]
  {
    if ms == [] then map[] else PlanFrom(nr, ms[..|ms| - 1])[nr + |ms| - 1 := ms[|ms| - 1]]
  }

  function PlanAfter(p: Params, s: State, plan: Plan, i: Input): Plan {
    if AcceptsMembership(s, i) then plan[s.epoch.nr + 1 + p.configOffset := i.membership]
    else if Installs(s, i) then
      (map e | e in plan && e <= s.epoch.nr :: plan[e]) + PlanFrom(i.chkp.Epoch(), i.chkp.Memberships())
    else plan
  }

  /** The pipeline of memberships is the plan, seen from the current epoch. */
  ghost predicate InPipeline(offset: nat, nr: EpochNr, ms: seq<Membership>, next: Option<Membership>, plan: Plan) {
    && |ms| == offset + 1
    && (forall e | nr <= e <= nr + offset :: e in plan && plan[e] == ms[e - nr])
    && (forall e | e in plan :: e <= nr + offset + 1)
    && (if next.Some? then nr + offset + 1 in plan && plan[nr + offset + 1] == next.value else nr + offset + 1 !in plan)
  }

  ghost predicate OnSchedule(p: Params, s: State, plan: Plan) {
    InPipeline(p.configOffset, s.epoch.nr, s.memberships, s.nextNewMembership, plan)
  }

  /** Availability modules, orderers and checkpoint instances are created with the planned memberships,
      and a checkpoint is signed by the membership of the epoch before. */
  ghost predicate AsPlanned(plan: Plan, upTo: EpochNr, e: Event) {
    match e
    case NewAvailability(nr, m) => nr <= upTo && nr in plan && plan[nr] == m
    case NewOrderer(nr, _, segment) => nr <= upTo && nr in plan && plan[nr] == segment.membership
    case NewChkpInstance(params) =>
      var nr := params.config.epochNr;
      0 < nr <= upTo && nr - 1 in plan && plan[nr - 1] == params.membership
    case _ => true
  }

  ghost predicate AllAsPlanned(plan: Plan, upTo: EpochNr, events: seq<Event>) {
    forall e | e in events :: AsPlanned(plan, upTo, e)
  }

  ghost predicate Planned(p: Params, plan: Plan, o: Outcome) {
    o.Ok? ==> OnSchedule(p, o.s, plan) && AllAsPlanned(plan, o.s.epoch.nr, o.out)
  }

  lemma StartEpochPlanned(p: Params, s: State, nr: EpochNr, leaders: seq<NodeId>, plan: Plan)
    requires InPipeline(p.configOffset, nr, s.memberships, s.nextNewMembership, plan)
    ensures Planned(p, plan, StartEpoch(p, s, nr, leaders))
    ensures StartEpoch(p, s, nr, leaders).Ok? ==> StartEpoch(p, s, nr, leaders).s.epoch.nr == nr
  {
    hide EpochLen;
    assert nr in plan && plan[nr] == s.memberships[0];
  }

  lemma AdvancePlanned(p: Params, s: State, choose: Chooser, plan: Plan)
    requires s.nextNewMembership.Some? && OnSchedule(p, s, plan)
    ensures Planned(p, plan, AdvanceEpoch(p, s, choose))
    ensures AdvanceEpoch(p, s, choose).Ok? ==> AdvanceEpoch(p, s, choose).s.epoch.nr == s.epoch.nr + 1
  {
    hide StartEpoch, LP.Reconfigure;
    if AdvanceEpoch(p, s, choose).Ok? {
      var memberships := s.memberships[1..] + [s.nextNewMembership.value];
      var policy := LP.Reconfigure(s.policy, memberships[0]);
      var s1 := s.(memberships := memberships, nextNewMembership := None, policy := policy);
      var nr := s.epoch.nr + 1;
      StartEpochPlanned(p, s1, nr, choose(policy), plan);
      assert s.epoch.nr in plan && plan[s.epoch.nr] == s.memberships[0];
    }
  }

  lemma ProcessPlanned(p: Params, s: State, choose: Chooser, plan: Plan)
    requires OnSchedule(p, s, plan)
    ensures Planned(p, plan, ProcessCommitted(p, s, choose))
    ensures ProcessCommitted(p, s, choose).Ok? ==> ProcessCommitted(p, s, choose).s.epoch.nr >= s.epoch.nr
  {
    hide AdvanceEpoch, CertEvents, Readable, Iss.Run;
    if HasEpochCheckpoint(s) {
      CertsCreateNothing(Iss.Run(s.commitLog, s.nextDeliveredSN), s.nextDeliveredSN);
      if EpochFinished(Drained(s)) {
        AdvancePlanned(p, Drained(s), choose, plan);
      }
    }
  }

  lemma InstallPlanned(p: Params, s: State, chkp: StableCheckpoint, policy: LeaderPolicy, choose: Chooser, plan: Plan)
    requires |chkp.Memberships()| == p.configOffset + 1 && FarEnoughAhead(s, chkp)
    requires forall e | e in plan :: e <= s.epoch.nr || chkp.Epoch() <= e < chkp.Epoch() + |chkp.Memberships()|
    requires forall e | chkp.Epoch() <= e < chkp.Epoch() + |chkp.Memberships()| ::
      e in plan && plan[e] == chkp.Memberships()[e - chkp.Epoch()]
    ensures Planned(p, plan, Install(p, s, chkp, policy, choose))
    ensures Install(p, s, chkp, policy, choose).Ok? ==> Install(p, s, chkp, policy, choose).s.epoch.nr == chkp.Epoch()
  {
    hide StartEpoch;
    if Install(p, s, chkp, policy, choose).Ok? {
      StartEpochPlanned(p, Installed(s, chkp, policy), chkp.Epoch(), choose(policy), plan);
    }
  }

  /** A checkpoint that passed validation has a membership for its epoch and for each of the configOffset
      following ones. */
  ghost predicate Counted(p: Params, i: Input) {
    i.CheckpointValidated? && i.ok ==> |i.chkp.Memberships()| == p.configOffset + 1
  }

  lemma AcceptPlanned(p: Params, s: State, plan: Plan, i: Input)
    requires OnSchedule(p, s, plan) && AcceptsMembership(s, i)
    ensures OnSchedule(p, s.(nextNewMembership := Some(i.membership)), PlanAfter(p, s, plan, i))
  {}

  lemma CommonCheckpointPlanned(p: Params, s: State, common: Option<StableCheckpoint>, choose: Chooser, plan: Plan)
    requires OnSchedule(p, s, plan)
    ensures
      var o := OnCommonCheckpoint(p, s, common, choose);
      Planned(p, plan, o) && (o.Ok? ==> o.s.epoch.nr >= s.epoch.nr)
  {
    hide ProcessCommitted, InPipeline;
    if common.Some? {
      ProcessPlanned(p, s.(lastStable := common.value), choose, plan);
    }
  }

  lemma StepPlanned(p: Params, s: State, i: Input, choose: Chooser, plan: Plan)
    requires OnSchedule(p, s, plan)
    requires Counted(p, i)
    ensures Planned(p, PlanAfter(p, s, plan, i), Step(p, s, i, choose))
    ensures Step(p, s, i, choose).Ok? ==> Step(p, s, i, choose).s.epoch.nr >= s.epoch.nr
  {
    hide ProcessCommitted, AdvanceEpoch, Install, OnCommonCheckpoint, LP.Suspect, SortedKeys.Sorted, InPipeline;
    match i
    case SbDeliver(sn, data, aborted, leader) =>
      if aborted {
        ProcessPlanned(p, s.(commitLog := s.commitLog[sn := Entry(data, true, leader)]), choose, plan);
      } else if data.Unreadable? {
        ProcessPlanned(p, s.(policy := LP.Suspect(s.policy, s.epoch.nr, leader),
                             commitLog := s.commitLog[sn := Entry(EMPTY, true, leader)]), choose, plan);
      }
    case SbCheckpoint(common) =>
      CommonCheckpointPlanned(p, s, common, choose, plan);
    case CertVerified(valid, sn, data, leader) =>
      if valid {
        ProcessPlanned(p, s.(commitLog := s.commitLog[sn := Entry(data, false, leader)]), choose, plan);
      } else {
        ProcessPlanned(p, s.(policy := LP.Suspect(s.policy, s.epoch.nr, leader),
                             commitLog := s.commitLog[sn := Entry(EMPTY, true, leader)]), choose, plan);
      }
    case NewConfig(epochNr, m) =>
      var s1 := s.(nextNewMembership := Some(m));
      if AcceptsMembership(s, i) {
        AcceptPlanned(p, s, plan, i);
        if EpochFinished(s1) {
          AdvancePlanned(p, s1, choose, PlanAfter(p, s, plan, i));
        }
      }
    case ProtocolCheckpoint(chkp) =>
    case CheckpointReceived(chkp) =>
    case CheckpointValidated(ok, chkp) =>
      if Installs(s, i) {
        InstallPlanned(p, s, chkp, chkp.snapshot.epochData.leaderPolicy.policy, choose, PlanAfter(p, s, plan, i));
      }
  }

  // ---------------------------------------------------------------- runs

  /** An input, and the way the leader policy broke ties while it was handled. */
  datatype Move = Move(input: Input, choose: Chooser)

  datatype History = History(s: State, trace: seq<Event>, plan: Plan)

  ghost function Begin(p: Params, start: StableCheckpoint, choose: Chooser): Option<History> {
    match start.snapshot.epochData.leaderPolicy
    case Malformed(_) => None
    case Encoded(policy) =>
      match Init(p, start, policy, choose)
      case Error => None
      case Ok(s, out) => Some(History(s, out, PlanFrom(start.Epoch(), start.Memberships())))
  }

  ghost function After(p: Params, h: History, move: Move): Option<History> {
    match Step(p, h.s, move.input, move.choose)
    case Error => None
    case Ok(s, out) => Some(History(s, h.trace + out, PlanAfter(p, h.s, h.plan, move.input)))
  }

  /** A run that ends in an error has no history. */
  ghost function Play(p: Params, start: StableCheckpoint, choose: Chooser, moves: seq<Move>): Option<History> {
    if moves == [] then Begin(p, start, choose)
    else
      match Play(p, start, choose, moves[..|moves| - 1])
      case None => None
      case Some(h) => After(p, h, moves[|moves| - 1])
  }

  /** Every outcome for a sequence number is one below the end of the epoch it arrives in. */
  ghost predicate InRangeRun(p: Params, start: StableCheckpoint, choose: Chooser, moves: seq<Move>) {
    if moves == [] then true
    else
      var before := moves[..|moves| - 1];
      && InRangeRun(p, start, choose, before)
      && var h := Play(p, start, choose, before);
         h.Some? ==> InRange(h.value.s, moves[|moves| - 1].input)
  }

  /** Orderers deliver at sequence numbers of segments they were given, and a checkpoint that is installed does
      not start below the end of the epoch it replaces. */
  ghost predicate Legal(s: State, trace: seq<Event>, i: Input) {
    match i
    case SbDeliver(sn, _, _, _) => Created(trace, sn)
    case CertVerified(_, sn, _, _) => Created(trace, sn)
    case CheckpointValidated(_, chkp) => Installs(s, i) ==> chkp.sn >= s.newEpochSN
    case _ => true
  }

  ghost predicate LegalRun(p: Params, start: StableCheckpoint, choose: Chooser, moves: seq<Move>) {
    if moves == [] then true
    else
      var before := moves[..|moves| - 1];
      && LegalRun(p, start, choose, before)
      && var h := Play(p, start, choose, before);
         h.Some? ==> Legal(h.value.s, h.value.trace, moves[|moves| - 1].input)
  }

  /** The starting checkpoint and every checkpoint that passes validation has configOffset + 1 memberships. */
  ghost predicate CountedRun(p: Params, start: StableCheckpoint, moves: seq<Move>) {
    |start.Memberships()| == p.configOffset + 1 && forall i | 0 <= i < |moves| :: Counted(p, moves[i].input)
  }

  /** What holds in every run, whatever the environment does. */
  ghost predicate Seen(h: History) {
    SeeAll(Start, h.trace) == ViewOf(h.s)
  }

  /** What holds in addition while every outcome is in range. */
  ghost predicate Within(h: History) {
    Bounded(h.s) && AllBelow(h.trace, h.s.newEpochSN)
  }

  /** What holds in addition if checkpoints come with the right number of memberships. */
  ghost predicate Scheduled(p: Params, h: History) {
    OnSchedule(p, h.s, h.plan) && AllAsPlanned(h.plan, h.s.epoch.nr, h.trace)
  }

  lemma InitSeen(p: Params, start: StableCheckpoint, policy: LeaderPolicy, choose: Chooser)
    requires Init(p, start, policy, choose).Ok?
    ensures
      var o := Init(p, start, policy, choose);
      Bounded(o.s) && SeeAll(Start, o.out) == ViewOf(o.s) && AllBelow(o.out, o.s.newEpochSN)
  {
    hide SeeAll, OrdererEvents, EpochLen, SegmentsOf;
    var s := New(start, policy);
    var o1 := StartEpoch(p, s, start.Epoch(), choose(policy));
    StartEpochSeen(p, s, start.Epoch(), choose(policy), See(Start, RestoreState(start)));
    SeeConcat(Start, [RestoreState(start)], o1.out);
    SeeOne(Start, RestoreState(start));
    StartEpochBelow(p, s, start.Epoch(), choose(policy));
  }

  /** Every run, in any environment, is accepted by the observer, whose view is that of the final state. */
  lemma {:induction false} RunSeen(p: Params, start: StableCheckpoint, choose: Chooser, moves: seq<Move>)
    requires Play(p, start, choose, moves).Some?
    ensures Seen(Play(p, start, choose, moves).value)
    decreases |moves|
  {
    hide SeeAll, Step, Init;
    if moves == [] {
      InitSeen(p, start, start.snapshot.epochData.leaderPolicy.policy, choose);
    } else {
      var init, last := moves[..|moves| - 1], moves[|moves| - 1];
      RunSeen(p, start, choose, init);
      var h := Play(p, start, choose, init).value;
      StepSeen(p, h.s, last.input, last.choose);
      SeeConcat(Start, h.trace, Step(p, h.s, last.input, last.choose).out);
    }
  }

  /** Every run in which every outcome is in range stays within its epochs. */
  lemma {:induction false} RunStaysBounded(p: Params, start: StableCheckpoint, choose: Chooser, moves: seq<Move>)
    requires InRangeRun(p, start, choose, moves) && Play(p, start, choose, moves).Some?
    ensures Bounded(Play(p, start, choose, moves).value.s)
    decreases |moves|
  {
    hide Step, Init, Bounded, InRange;
    if moves == [] {
      InitSeen(p, start, start.snapshot.epochData.leaderPolicy.policy, choose);
    } else {
      var before, last := moves[..|moves| - 1], moves[|moves| - 1];
      RunStaysBounded(p, start, choose, before);
      StepBelow(p, Play(p, start, choose, before).value.s, last.input, last.choose);
    }
  }

  lemma LegalIsInRange(h: History, i: Input)
    requires Within(h) && Legal(h.s, h.trace, i)
    ensures InRange(h.s, i)
  {}

  lemma AfterStaysWithin(p: Params, h: History, move: Move)
    requires Within(h) && Legal(h.s, h.trace, move.input) && After(p, h, move).Some?
    ensures Within(After(p, h, move).value)
  {
    hide Step, Bounded;
    LegalIsInRange(h, move.input);
    StepBelow(p, h.s, move.input, move.choose);
    var o := Step(p, h.s, move.input, move.choose);
    AllBelowConcat(h.trace, o.out, h.s.newEpochSN, o.s.newEpochSN);
  }

  /** If orderers keep to their segments and no installed checkpoint starts below the end of the current epoch,
      every outcome is in range, and no segment was ever created beyond the end of the current epoch. */
  lemma {:induction false} LegalRunsAreInRange(p: Params, start: StableCheckpoint, choose: Chooser, moves: seq<Move>)
    requires LegalRun(p, start, choose, moves) && Play(p, start, choose, moves).Some?
    ensures InRangeRun(p, start, choose, moves) && Within(Play(p, start, choose, moves).value)
    decreases |moves|
  {
    hide Within, After, Init, Legal, InRange;
    if moves == [] {
      BeginsWithin(p, start, choose);
    } else {
      var before := moves[..|moves| - 1];
      LegalRunsAreInRange(p, start, choose, before);
      var h := Play(p, start, choose, before).value;
      LegalIsInRange(h, moves[|moves| - 1].input);
      AfterStaysWithin(p, h, moves[|moves| - 1]);
    }
  }

  lemma BeginsWithin(p: Params, start: StableCheckpoint, choose: Chooser)
    requires Begin(p, start, choose).Some?
    ensures Within(Begin(p, start, choose).value)
  {
    hide Init, Bounded;
    InitSeen(p, start, start.snapshot.epochData.leaderPolicy.policy, choose);
  }

  // ---------------------------------------------------------------- runs on schedule

  lemma BeginsScheduled(p: Params, start: StableCheckpoint, choose: Chooser)
    requires |start.Memberships()| == p.configOffset + 1 && Begin(p, start, choose).Some?
    ensures Scheduled(p, Begin(p, start, choose).value)
  {
    hide StartEpoch;
    var policy, plan := start.snapshot.epochData.leaderPolicy.policy, PlanFrom(start.Epoch(), start.Memberships());
    StartEpochPlanned(p, New(start, policy), start.Epoch(), choose(policy), plan);
  }

  lemma StaysAsPlanned(p: Params, s: State, plan: Plan, i: Input, upTo: EpochNr, events: seq<Event>)
    requires OnSchedule(p, s, plan) && s.epoch.nr <= upTo && AllAsPlanned(plan, s.epoch.nr, events)
    ensures AllAsPlanned(PlanAfter(p, s, plan, i), upTo, events)
  {
    forall e | e in events ensures AsPlanned(PlanAfter(p, s, plan, i), upTo, e) {
      assert AsPlanned(plan, s.epoch.nr, e);
    }
  }

  lemma AfterStaysScheduled(p: Params, h: History, move: Move)
    requires Scheduled(p, h) && Counted(p, move.input) && After(p, h, move).Some?
    ensures Scheduled(p, After(p, h, move).value)
  {
    hide Step, AsPlanned, InPipeline, PlanAfter;
    StepPlanned(p, h.s, move.input, move.choose, h.plan);
    StaysAsPlanned(p, h.s, h.plan, move.input, Step(p, h.s, move.input, move.choose).s.epoch.nr, h.trace);
  }

  /** Every run whose checkpoints have the right number of memberships keeps to the plan. */
  lemma {:induction false} RunStaysScheduled(p: Params, start: StableCheckpoint, choose: Chooser, moves: seq<Move>)
    requires CountedRun(p, start, moves) && Play(p, start, choose, moves).Some?
    ensures Scheduled(p, Play(p, start, choose, moves).value)
    decreases |moves|
  {
    hide Scheduled, After, Begin, Counted;
    if moves == [] {
      BeginsScheduled(p, start, choose);
    } else {
      var before := moves[..|moves| - 1];
      RunStaysScheduled(p, start, choose, before);
      AfterStaysScheduled(p, Play(p, start, choose, before).value, moves[|moves| - 1]);
    }
  }
}
