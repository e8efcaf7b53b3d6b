/** The promises of ISS to its application, read off the events of a run alone. */
module IssTheorems {
  import opened Quorums
  import opened Types
  import opened Segments
  import opened Iss
  import opened IssRuns
  import opened Certificates
  import LP = LeaderPolicies
  import SortedKeys

  // ---------------------------------------------------------------- reading a trace

  /** The sequence numbers of the certificates delivered since the last restore. */
  function Delivered(trace: seq<Event>): seq<SeqNr> {
    if trace == [] then []
    else
      var before := Delivered(trace[..|trace| - 1]);
      match trace[|trace| - 1]
      case RestoreState(_) => []
      case DeliverCert(sn, _) => before + [sn]
      case _ => before
  }

  /** The sequence number of the last restored checkpoint. */
  function Base(trace: seq<Event>): SeqNr {
    if trace == [] then 0
    else
      match trace[|trace| - 1]
      case RestoreState(c) => c.sn
      case _ => Base(trace[..|trace| - 1])
  }

  /** The checkpoint the application was last restored from. */
  function LastRestored(trace: seq<Event>): Option<StableCheckpoint> {
    if trace == [] then None
    else
      match trace[|trace| - 1]
      case RestoreState(c) => Some(c)
      case _ => LastRestored(trace[..|trace| - 1])
  }

  /** The first sequence number of the current epoch: what had been reached when it was announced. */
  function EpochStart(trace: seq<Event>): SeqNr {
    if trace == [] then 0
    else
      var before := trace[..|trace| - 1];
      match trace[|trace| - 1]
      case NewEpoch(_) => Base(before) + |Delivered(before)|
      case _ => EpochStart(before)
  }

  /** How many sequence numbers the orderers of the current epoch were given. */
  function EpochSize(trace: seq<Event>): nat {
    if trace == [] then 0
    else
      var before := trace[..|trace| - 1];
      match trace[|trace| - 1]
      case NewEpoch(_) => 0
      case NewOrderer(_, _, segment) => EpochSize(before) + |segment.seqNrs|
      case _ => EpochSize(before)
  }

  /** The last epoch announced. */
  function CurrentEpoch(trace: seq<Event>): EpochNr {
    if trace == [] then 0
    else
      match trace[|trace| - 1]
      case NewEpoch(nr) => nr
      case _ => CurrentEpoch(trace[..|trace| - 1])
  }

  ghost predicate CarriesCheckpoint(e: Event, sn: SeqNr) {
    (e.RestoreState? || e.StableChkp?) && e.chkp.sn == sn
  }

  ghost predicate Consecutive(sns: seq<SeqNr>, from: SeqNr) {
    forall k | 0 <= k < |sns| :: sns[k] == from + k
  }

  /** The observer's view holds exactly these readings. */
  lemma {:induction false} ViewReadsTrace(trace: seq<Event>)
    requires !SeeAll(Start, trace).Violation?
    ensures
      var v := SeeAll(Start, trace);
      && Consecutive(Delivered(trace), Base(trace))
      && (v.Restored? ==>
            && v.sn == Base(trace) && Delivered(trace) == []
            && exists e | e in trace :: CarriesCheckpoint(e, v.sn))
      && (v.Running? ==>
            && v.epoch == CurrentEpoch(trace) && v.first == EpochStart(trace) && v.end == v.first + EpochSize(trace)
            && v.next == Base(trace) + |Delivered(trace)|
            && Base(trace) <= v.first <= v.next
            && exists e | e in trace :: CarriesCheckpoint(e, v.chkp))
    decreases |trace|
  {
    if trace != [] {
      var before, e := trace[..|trace| - 1], trace[|trace| - 1];
      ViewReadsTrace(before);
      assert forall x | x in before :: x in trace;
      assert e in trace;
      assert e.RestoreState? || e.StableChkp? ==> CarriesCheckpoint(e, e.chkp.sn);
    }
  }

  lemma {:induction false} PrefixAccepted(trace: seq<Event>, i: nat)
    requires i <= |trace| && !SeeAll(Start, trace).Violation?
    ensures !SeeAll(Start, trace[..i]).Violation?
    decreases |trace| - i
  {
    if i < |trace| {
      PrefixAccepted(trace, i + 1);
      assert trace[..i + 1][..i] == trace[..i];
    } else {
      assert trace[..i] == trace;
    }
  }

  // ---------------------------------------------------------------- theorems

  /** A run with these moves, in any environment, has this history. */
  ghost predicate Plays(p: Params, start: StableCheckpoint, choose: Chooser, moves: seq<Move>, h: History) {
    Play(p, start, choose, moves) == Some(h)
  }

  /** Every run goes through the histories of its beginnings. */
  lemma {:induction false} PrefixPlays(
      p: Params, start: StableCheckpoint, choose: Chooser, moves: seq<Move>, h: History, n: nat)
    returns (h0: History)
    requires n <= |moves| && Plays(p, start, choose, moves, h)
    ensures Plays(p, start, choose, moves[..n], h0) && h0.trace <= h.trace
    decreases |moves|
  {
    hide Step, Begin;
    if n < |moves| {
      assert moves[..|moves| - 1][..n] == moves[..n];
      var init := moves[..|moves| - 1];
      h0 := PrefixPlays(p, start, choose, init, Play(p, start, choose, init).value, n);
    } else {
      assert moves[..n] == moves;
      h0 := h;
    }
  }

  /** Between restores, the delivered sequence numbers are consecutive from the restored checkpoint on, each
      delivered exactly once. This needs nothing of the environment. */
  lemma GapFreeDelivery(p: Params, start: StableCheckpoint, choose: Chooser, moves: seq<Move>, h: History)
    requires Plays(p, start, choose, moves, h)
    ensures Consecutive(Delivered(h.trace), Base(h.trace))
    ensures h.s.nextDeliveredSN == Base(h.trace) + |Delivered(h.trace)|
    ensures h.s.epoch.firstSN == EpochStart(h.trace) <= h.s.nextDeliveredSN
    ensures h.s.newEpochSN == EpochStart(h.trace) + EpochSize(h.trace)
  {
    RunSeen(p, start, choose, moves);
    ViewReadsTrace(h.trace);
  }

  /** Every certificate is preceded by an event that brings the application the checkpoint at the first
      sequence number of the certificate's epoch, in every environment. */
  lemma CheckpointGatesDelivery(
      p: Params, start: StableCheckpoint, choose: Chooser, moves: seq<Move>, h: History, i: nat)
    returns (j: nat)
    requires Plays(p, start, choose, moves, h) && i < |h.trace| && h.trace[i].DeliverCert?
    ensures EpochStart(h.trace[..i]) <= h.trace[i].sn == Base(h.trace[..i]) + |Delivered(h.trace[..i])|
    ensures j < i && CarriesCheckpoint(h.trace[j], EpochStart(h.trace[..i]))
  {
    hide Play;
    RunSeen(p, start, choose, moves);
    PrefixAccepted(h.trace, i + 1);
    PrefixAccepted(h.trace, i);
    assert h.trace[..i + 1][..i] == h.trace[..i];
    ViewReadsTrace(h.trace[..i]);
    var e :| e in h.trace[..i] && CarriesCheckpoint(e, EpochStart(h.trace[..i]));
    j :| 0 <= j < i && h.trace[j] == e;
  }

  /** An epoch is followed by the next one, unless by a restore, and only after all the sequence numbers
      its orderers were given have been delivered and a checkpoint at its first sequence number has been
      announced. */
  lemma EpochsEndDelivered(p: Params, start: StableCheckpoint, choose: Chooser, moves: seq<Move>, h: History, i: nat)
    returns (j: nat)
    requires Plays(p, start, choose, moves, h)
    requires 0 < i < |h.trace| && h.trace[i].NewEpoch? && !h.trace[i - 1].RestoreState?
    ensures h.trace[i].nr == CurrentEpoch(h.trace[..i]) + 1
    ensures Base(h.trace[..i]) + |Delivered(h.trace[..i])| == EpochStart(h.trace[..i]) + EpochSize(h.trace[..i])
    ensures j < i && CarriesCheckpoint(h.trace[j], EpochStart(h.trace[..i]))
  {
    hide Play;
    RunSeen(p, start, choose, moves);
    PrefixAccepted(h.trace, i + 1);
    PrefixAccepted(h.trace, i);
    assert h.trace[..i + 1][..i] == h.trace[..i];
    assert h.trace[..i][..i - 1] == h.trace[..i - 1];
    ViewReadsTrace(h.trace[..i]);
    var e :| e in h.trace[..i] && CarriesCheckpoint(e, EpochStart(h.trace[..i]));
    j :| 0 <= j < i && h.trace[j] == e;
  }

  // ---------------------------------------------------------------- no epoch ends without a next membership

  ghost predicate NoEpochs(events: seq<Event>) {
    forall i | 0 <= i < |events| :: !events[i].NewEpoch?
  }

  /** At most one epoch is announced, at place k. */
  ghost predicate OneEpoch(events: seq<Event>, k: nat) {
    k < |events| && forall i | 0 <= i < |events| && i != k :: !events[i].NewEpoch?
  }

  lemma OneEpochWithin(a: seq<Event>, b: seq<Event>, c: seq<Event>, k: nat)
    requires NoEpochs(a) && OneEpoch(b, k) && NoEpochs(c)
    ensures OneEpoch(a + b + c, |a| + k)
  {}

  /** A step that leaves a membership waiting starts no epoch, and one that starts an epoch without a restore
      had a membership waiting, or was given one. */
  ghost predicate StartsGiven(given: bool, o: Outcome) {
    o.Ok? ==>
      && (o.s.nextNewMembership.Some? ==> given && NoEpochs(o.out))
      && (NoEpochs(o.out) || (given && exists k :: OneEpoch(o.out, k)))
  }

  lemma AdvanceGiven(p: Params, s: State, choose: Chooser)
    requires s.nextNewMembership.Some?
    ensures StartsGiven(true, AdvanceEpoch(p, s, choose))
    ensures AdvanceEpoch(p, s, choose).Ok? ==> OneEpoch(AdvanceEpoch(p, s, choose).out, 0)
  {
    hide SegmentsOf, EpochLen, LP.Reconfigure;
    if AdvanceEpoch(p, s, choose).Ok? {
      assert OneEpoch(AdvanceEpoch(p, s, choose).out, 0);
    }
  }

  lemma ProcessGiven(p: Params, s: State, choose: Chooser)
    ensures StartsGiven(s.nextNewMembership.Some?, ProcessCommitted(p, s, choose))
  {
    hide AdvanceEpoch, CertEvents, Readable, Iss.Run, SuspectAll, Without, OneEpoch;
    var certs := CertEvents(Iss.Run(s.commitLog, s.nextDeliveredSN), s.nextDeliveredSN);
    CertsCreateNothing(Iss.Run(s.commitLog, s.nextDeliveredSN), s.nextDeliveredSN);
    assert forall i | 0 <= i < |certs| :: certs[i] in certs;
    if EpochFinished(Drained(s)) && AdvanceEpoch(p, Drained(s), choose).Ok? {
      AdvanceGiven(p, Drained(s), choose);
      var out := AdvanceEpoch(p, Drained(s), choose).out;
      OneEpochWithin(certs, out, [], 0);
      assert certs + out + [] == certs + out;
    }
  }

  lemma CommonCheckpointGiven(p: Params, s: State, common: Option<StableCheckpoint>, choose: Chooser)
    ensures StartsGiven(s.nextNewMembership.Some?, OnCommonCheckpoint(p, s, common, choose))
  {
    hide ProcessCommitted, OneEpoch;
    if common.Some? {
      var chkp := common.value;
      ProcessGiven(p, s.(lastStable := chkp), choose);
      var o := ProcessCommitted(p, s.(lastStable := chkp), choose);
      if o.Ok? && !NoEpochs(o.out) {
        var k :| OneEpoch(o.out, k);
        OneEpochWithin([StableChkp(chkp)], o.out, Prune(p, chkp.Epoch()), k);
      }
    }
  }

  ghost predicate Given(s: State, i: Input) {
    s.nextNewMembership.Some? || AcceptsMembership(s, i)
  }

  lemma StepGiven(p: Params, s: State, i: Input, choose: Chooser)
    requires !Installs(s, i)
    ensures StartsGiven(Given(s, i), Step(p, s, i, choose))
  {
    hide ProcessCommitted, AdvanceEpoch, OnCommonCheckpoint, LP.Suspect, SortedKeys.Sorted, OneEpoch;
    match i
    case SbDeliver(sn, data, aborted, leader) =>
      var policy := LP.Suspect(s.policy, s.epoch.nr, leader);
      ProcessGiven(p, s.(commitLog := s.commitLog[sn := Entry(data, true, leader)]), choose);
      ProcessGiven(p, s.(policy := policy, commitLog := s.commitLog[sn := Entry(EMPTY, true, leader)]), choose);
    case SbCheckpoint(common) =>
      CommonCheckpointGiven(p, s, common, choose);
    case CertVerified(valid, sn, data, leader) =>
      var policy := LP.Suspect(s.policy, s.epoch.nr, leader);
      ProcessGiven(p, s.(commitLog := s.commitLog[sn := Entry(data, false, leader)]), choose);
      ProcessGiven(p, s.(policy := policy, commitLog := s.commitLog[sn := Entry(EMPTY, true, leader)]), choose);
    case NewConfig(epochNr, m) =>
      AdvanceGiven(p, s.(nextNewMembership := Some(m)), choose);
    case ProtocolCheckpoint(chkp) =>
    case CheckpointReceived(chkp) =>
    case CheckpointValidated(ok, chkp) =>
  }

  /** An installation announces one epoch, right after the restore, and leaves no membership waiting. */
  lemma InstallStarts(p: Params, s: State, i: Input, choose: Chooser)
    requires Installs(s, i) && Step(p, s, i, choose).Ok?
    ensures
      var o := Step(p, s, i, choose);
      o.s.nextNewMembership.None? && OneEpoch(o.out, 1) && o.out[0].RestoreState?
  {
    hide SegmentsOf, EpochLen;
  }

  /** Move m of the run gave ISS the membership that its history hm had none of, and `events`, which go on from
      the trace of hm, announce no other epoch. */
  ghost predicate GivenAt(
      p: Params, start: StableCheckpoint, choose: Chooser, moves: seq<Move>, trace: seq<Event>, m: nat, hm: History)
  {
    && m < |moves| && Plays(p, start, choose, moves[..m], hm) && AcceptsMembership(hm.s, moves[m].input)
    && hm.trace <= trace && NoEpochs(trace[|hm.trace|..])
  }

  /** What was given stays given while no epoch is announced and more moves are made. */
  lemma GivenStays(
      p: Params, start: StableCheckpoint, choose: Chooser, moves: seq<Move>, trace: seq<Event>, m: nat, hm: History,
      more: seq<Move>, events: seq<Event>)
    requires GivenAt(p, start, choose, moves, trace, m, hm) && moves <= more && NoEpochs(events)
    ensures GivenAt(p, start, choose, more, trace + events, m, hm)
  {
    hide Play;
    assert more[..m] == moves[..m];
    assert (trace + events)[|hm.trace|..] == trace[|hm.trace|..] + events;
  }

  lemma {:induction false} WaitingWasGiven(
      p: Params, start: StableCheckpoint, choose: Chooser, moves: seq<Move>, h: History)
    returns (m: nat, hm: History)
    requires Plays(p, start, choose, moves, h) && h.s.nextNewMembership.Some?
    ensures GivenAt(p, start, choose, moves, h.trace, m, hm)
    decreases |moves|
  {
    hide Step, StartEpoch;
    if moves == [] {
      BeginStarts(p, start, choose);
      assert false;
    }
    var init, last := moves[..|moves| - 1], moves[|moves| - 1];
    var h1 := Play(p, start, choose, init).value;
    var o := Step(p, h1.s, last.input, last.choose);
    if Installs(h1.s, last.input) {
      InstallStarts(p, h1.s, last.input, last.choose);
      assert false;
    }
    StepGiven(p, h1.s, last.input, last.choose);
    if h1.s.nextNewMembership.Some? {
      m, hm := WaitingWasGiven(p, start, choose, init, h1);
      GivenStays(p, start, choose, init, h1.trace, m, hm, moves, o.out);
    } else {
      m, hm := |init|, h1;
      assert h.trace[|h1.trace|..] == o.out;
    }
  }

  /** Whatever is announced in the step after h1 without a restore was given before. */
  lemma StepWasGiven(
      p: Params, start: StableCheckpoint, choose: Chooser, moves: seq<Move>, h1: History, last: Move, i: nat)
    returns (m: nat, hm: History)
    requires Plays(p, start, choose, moves, h1) && Step(p, h1.s, last.input, last.choose).Ok?
    requires
      var out := Step(p, h1.s, last.input, last.choose).out;
      i < |out| && out[i].NewEpoch? && (i > 0 ==> !out[i - 1].RestoreState?)
    ensures
      var out := Step(p, h1.s, last.input, last.choose).out;
      GivenAt(p, start, choose, moves + [last], h1.trace + out[..i], m, hm)
  {
    hide Step, Play;
    var out := Step(p, h1.s, last.input, last.choose).out;
    if Installs(h1.s, last.input) {
      InstallStarts(p, h1.s, last.input, last.choose);
      assert false;
    }
    StepGiven(p, h1.s, last.input, last.choose);
    assert NoEpochs(out[..i]) by {
      var k :| OneEpoch(out, k);
    }
    if h1.s.nextNewMembership.Some? {
      m, hm := WaitingWasGiven(p, start, choose, moves, h1);
      GivenStays(p, start, choose, moves, h1.trace, m, hm, moves + [last], out[..i]);
    } else {
      m, hm := |moves|, h1;
      assert (moves + [last])[..m] == moves;
      assert (h1.trace + out[..i])[|h1.trace|..] == out[..i];
    }
  }

  /** Every epoch announced without a restore follows the acceptance of a membership since the one before. */
  lemma {:induction false} EpochWasGiven(
      p: Params, start: StableCheckpoint, choose: Chooser, moves: seq<Move>, h: History, i: nat)
    returns (m: nat, hm: History)
    requires Plays(p, start, choose, moves, h)
    requires 0 < i < |h.trace| && h.trace[i].NewEpoch? && !h.trace[i - 1].RestoreState?
    ensures GivenAt(p, start, choose, moves, h.trace[..i], m, hm)
    decreases |moves|
  {
    hide Step, StartEpoch;
    if moves == [] {
      BeginStarts(p, start, choose);
      assert false;
    } else {
      var init, last := moves[..|moves| - 1], moves[|moves| - 1];
      var h1 := Play(p, start, choose, init).value;
      hide Play;
      if i < |h1.trace| {
        m, hm := EpochWasGiven(p, start, choose, init, h1, i);
        assert h.trace[..i] == h1.trace[..i] + [];
        GivenStays(p, start, choose, init, h1.trace[..i], m, hm, moves, []);
      } else {
        var k := i - |h1.trace|;
        m, hm := StepWasGiven(p, start, choose, init, h1, last, k);
        assert init + [last] == moves;
        assert h.trace[..i] == h1.trace + Step(p, h1.s, last.input, last.choose).out[..k];
      }
    }
  }

  lemma BeginStarts(p: Params, start: StableCheckpoint, choose: Chooser)
    requires Begin(p, start, choose).Some?
    ensures
      var h := Begin(p, start, choose).value;
      h.s.nextNewMembership.None? && OneEpoch(h.trace, 1) && h.trace[0].RestoreState?
  {
    hide SegmentsOf, EpochLen;
  }

  lemma {:induction false} SameEpoch(a: seq<Event>, b: seq<Event>)
    requires NoEpochs(b)
    ensures CurrentEpoch(a + b) == CurrentEpoch(a)
    decreases |b|
  {
    if b == [] {
      assert a + b == a;
    } else {
      SameEpoch(a, b[..|b| - 1]);
      assert (a + b)[..|a + b| - 1] == a + b[..|b| - 1];
      assert b[|b| - 1] in b;
    }
  }

  /** An epoch is followed by the next one, unless by a restore, and only after all the sequence numbers its
      orderers were given have been delivered, a checkpoint at its first sequence number has been announced
      (event j), and a membership has been accepted in it (by move m, in the history hm). */
  lemma EpochsEndComplete(p: Params, start: StableCheckpoint, choose: Chooser, moves: seq<Move>, h: History, i: nat)
    returns (j: nat, m: nat, hm: History)
    requires Plays(p, start, choose, moves, h)
    requires 0 < i < |h.trace| && h.trace[i].NewEpoch? && !h.trace[i - 1].RestoreState?
    ensures h.trace[i].nr == CurrentEpoch(h.trace[..i]) + 1
    ensures Base(h.trace[..i]) + |Delivered(h.trace[..i])| == EpochStart(h.trace[..i]) + EpochSize(h.trace[..i])
    ensures j < i && CarriesCheckpoint(h.trace[j], EpochStart(h.trace[..i]))
    ensures GivenAt(p, start, choose, moves, h.trace[..i], m, hm) && hm.s.epoch.nr == CurrentEpoch(h.trace[..i])
  {
    hide Play, CurrentEpoch, Delivered, Base, EpochStart, EpochSize;
    j := EpochsEndDelivered(p, start, choose, moves, h, i);
    m, hm := EpochWasGiven(p, start, choose, moves, h, i);
    RunSeen(p, start, choose, moves[..m]);
    ViewReadsTrace(hm.trace);
    SameEpoch(hm.trace, h.trace[..i][|hm.trace|..]);
    assert hm.trace + h.trace[..i][|hm.trace|..] == h.trace[..i];
  }

  // ---------------------------------------------------------------- the membership pipeline

  ghost predicate NoRestore(events: seq<Event>) {
    forall e | e in events :: !e.RestoreState?
  }

  /** A run with these moves, whose checkpoints have the right number of memberships, has this history. */
  ghost predicate Reaches(p: Params, start: StableCheckpoint, choose: Chooser, moves: seq<Move>, h: History) {
    CountedRun(p, start, moves) && Plays(p, start, choose, moves, h)
  }

  lemma InstallRestores(p: Params, h: History, move: Move)
    requires After(p, h, move).Some? && Installs(h.s, move.input)
    ensures !NoRestore(After(p, h, move).value.trace[|h.trace|..])
  {
    hide StartEpoch;
    var o := Step(p, h.s, move.input, move.choose);
    assert o.out[0] == RestoreState(move.input.chkp);
    assert (h.trace + o.out)[|h.trace|..] == o.out;
  }

  lemma PartHasNoRestore(a: seq<Event>, b: seq<Event>, c: seq<Event>)
    requires a <= b <= c && NoRestore(c[|a|..])
    ensures NoRestore(b[|a|..]) && NoRestore(c[|b|..])
  {
    forall e | e in b[|a|..] ensures e in c[|a|..] {
      var i :| 0 <= i < |b| - |a| && b[|a|..][i] == e;
      assert c[|a|..][i] == e;
    }
    forall e | e in c[|b|..] ensures e in c[|a|..] {
      var i :| 0 <= i < |c| - |b| && c[|b|..][i] == e;
      assert c[|a|..][i + |b| - |a|] == e;
    }
  }

  lemma PrefixReaches(
      p: Params, start: StableCheckpoint, choose: Chooser, moves: seq<Move>, h: History, n: nat)
    returns (h0: History)
    requires n <= |moves| && Reaches(p, start, choose, moves, h)
    ensures Reaches(p, start, choose, moves[..n], h0) && h0.trace <= h.trace
  {
    hide Plays, Counted;
    h0 := PrefixPlays(p, start, choose, moves, h, n);
  }

  lemma EntryIsKept(p: Params, h: History, move: Move, e: EpochNr)
    requires OnSchedule(p, h.s, h.plan) && !Installs(h.s, move.input) && e in h.plan && After(p, h, move).Some?
    ensures e in After(p, h, move).value.plan && After(p, h, move).value.plan[e] == h.plan[e]
  {
    hide Step;
  }

  /** Between restores, what is planned stays planned. */
  lemma {:induction false} PlanIsKept(
      p: Params, start: StableCheckpoint, choose: Chooser, moves: seq<Move>, h: History, n: nat, h0: History,
      e: EpochNr)
    requires Reaches(p, start, choose, moves, h) && n <= |moves| && Reaches(p, start, choose, moves[..n], h0)
    requires h0.trace <= h.trace && NoRestore(h.trace[|h0.trace|..]) && e in h0.plan
    ensures e in h.plan && h.plan[e] == h0.plan[e]
    decreases |moves|
  {
    hide Step, Begin, Counted;
    if n < |moves| {
      var init, last := moves[..|moves| - 1], moves[|moves| - 1];
      assert init[..n] == moves[..n];
      var h1 := Play(p, start, choose, init).value;
      var same := PrefixReaches(p, start, choose, init, h1, n);
      PartHasNoRestore(h0.trace, h1.trace, h.trace);
      PlanIsKept(p, start, choose, init, h1, n, h0, e);
      if Installs(h1.s, last.input) {
        InstallRestores(p, h1, last);
        assert false;
      }
      PipelineIsFull(p, start, choose, init, h1);
      EntryIsKept(p, h1, last, e);
    } else {
      assert moves[..n] == moves;
    }
  }

  /** The pipeline always has configOffset + 1 memberships: those planned for the current epoch and the
      configOffset following ones. */
  lemma PipelineIsFull(p: Params, start: StableCheckpoint, choose: Chooser, moves: seq<Move>, h: History)
    requires Reaches(p, start, choose, moves, h)
    ensures OnSchedule(p, h.s, h.plan) && |h.s.memberships| == p.configOffset + 1
    ensures forall e | h.s.epoch.nr <= e <= h.s.epoch.nr + p.configOffset ::
      e in h.plan && h.plan[e] == h.s.memberships[e - h.s.epoch.nr]
  {
    RunStaysScheduled(p, start, choose, moves);
  }

  /** A membership accepted in epoch e is the one used in epoch e + 1 + configOffset: move n of the run
      announces it, nothing is restored after that, and then every availability module and every orderer
      of that epoch is created with exactly this membership, which heads the pipeline in that epoch. */
  lemma AcceptedMembershipIsUsed(
      p: Params, start: StableCheckpoint, choose: Chooser, moves: seq<Move>, h: History, n: nat, h0: History)
    requires Reaches(p, start, choose, moves, h) && n < |moves| && Reaches(p, start, choose, moves[..n], h0)
    requires AcceptsMembership(h0.s, moves[n].input)
    requires h0.trace <= h.trace && NoRestore(h.trace[|h0.trace|..])
    ensures
      var m, target := moves[n].input.membership, h0.s.epoch.nr + 1 + p.configOffset;
      && (h.s.epoch.nr == target ==> h.s.memberships != [] && h.s.memberships[0] == m)
      && (forall e | e in h.trace && e.NewAvailability? && e.epoch == target :: e.membership == m)
      && (forall e | e in h.trace && e.NewOrderer? && e.epoch == target :: e.segment.membership == m)
  {
    hide Step, Begin, Counted;
    var target := h0.s.epoch.nr + 1 + p.configOffset;
    assert moves[..n + 1][..n] == moves[..n];
    var h1 := PrefixReaches(p, start, choose, moves, h, n + 1);
    PartHasNoRestore(h0.trace, h1.trace, h.trace);
    PlanIsKept(p, start, choose, moves, h, n + 1, h1, target);
    RunStaysScheduled(p, start, choose, moves);
    forall e | e in h.trace ensures AsPlanned(h.plan, h.s.epoch.nr, e) {}
  }

  // ---------------------------------------------------------------- validation

  /** Some validator accepted the checkpoint for some epoch and memberships. */
  ghost predicate Validated(v: ValidatorParams, c: StableCheckpoint) {
    exists e, ms {:trigger ConservativeVerify(v, c, e, ms)} {:trigger PermissiveVerify(v, c, e, ms)} ::
      ConservativeVerify(v, c, e, ms) == Accepted || PermissiveVerify(v, c, e, ms) == Accepted
  }

  /** A node is only started from a checkpoint that passes verification, and only told of checkpoints that a
      validator accepted. Every such run has checkpoints with the right number of memberships. */
  lemma ValidatedRunsAreCounted(
      p: Params, v: ValidatorParams, start: StableCheckpoint, initial: Membership, moves: seq<Move>)
    requires v.configOffset == p.configOffset && Verify(v.hash, start, p.configOffset, initial) == Accepted
    requires forall i | 0 <= i < |moves| ::
      moves[i].input.CheckpointValidated? && moves[i].input.ok ==> Validated(v, moves[i].input.chkp)
    ensures CountedRun(p, start, moves)
  {}

  /** What ISS hands to the validators for a received checkpoint is enough for them: a lookup they make
      is in range and finds the membership of the epoch just before the checkpoint's. */
  lemma ForwardedCheckpointsAreCheckable(
      p: Params, start: StableCheckpoint, choose: Chooser, moves: seq<Move>, h: History,
      v: ValidatorParams, c: StableCheckpoint, e: EpochNr, ms: seq<Membership>)
    requires Reaches(p, start, choose, moves, h) && v.configOffset == p.configOffset
    requires OnCheckpointReceived(h.s, c).out == [ValidateCheckpoint(c, e, ms)]
    ensures 0 < MembershipOffset(c, e)
    ensures MembershipOffset(c, e) <= v.configOffset ==>
      && c.Epoch() - 1 in h.plan
      && (WellFormedForUs(v, c) ==>
            && ConservativeVerify(v, c, e, ms) == Verify(v.hash, c, v.configOffset, h.plan[c.Epoch() - 1])
            && PermissiveVerify(v, c, e, ms) == Verify(v.hash, c, v.configOffset, h.plan[c.Epoch() - 1]))
    ensures MembershipOffset(c, e) > v.configOffset ==>
      && ConservativeVerify(v, c, e, ms) == Rejected
      && (WellFormedForUs(v, c) ==>
            PermissiveVerify(v, c, e, ms) == Verify(v.hash, c, v.configOffset, c.PreviousMembership()))
  {
    hide Verify, WellFormedForUs, Play, CountedRun;
    PipelineIsFull(p, start, choose, moves, h);
    assert ValidateCheckpoint(c, e, ms) == OnCheckpointReceived(h.s, c).out[0];
    assert e == h.s.epoch.nr && ms == h.s.memberships;
    if MembershipOffset(c, e) <= v.configOffset {
      assert h.plan[c.Epoch() - 1] == ms[MembershipOffset(c, e)];
    }
  }
}
