/** Why the three-step build needs its blocks to cite ancestors: with any number of replicas and at
    least one faulty one, a run in which two correct replicas commit conflicting blocks and one of them
    would throw "safety breached" at the next proposal.

    All correct replicas but one vote for A(1), A(2), A(3).  A faulty replica then makes up Y(0), which
    extends the rival branch X(1), X(2), X(3) but cites A(3).  Processing it commits A(1), and the
    "liveness condition" still makes the voters vote for it, and then for Y(1), Y(2) and Y(3).  The idle
    replica, which only ever sees the rival branch, commits X(1).
  */
module Counterexample {
  import opened Chain
  import opened Core
  import opened Quorums
  import opened Protocol
  import opened Runs
  import opened Safety

  /** Agreement is at stake: a faulty replica, and the three-step build. */
  ghost predicate AtStake(cfg: Config, idle: ReplicaId) {
    ValidConfig(cfg) && cfg.faulty != {} && cfg.build.ThreeStep? && Correct(cfg, idle)
  }

  // ---- the blocks ----

  function A(k: nat): (b: Block)
    ensures Height(b) == k
  {
    if k == 0 then Genesis else Node(A(k - 1), [], A(k - 1), [], 0)
  }

  function X(k: nat): (b: Block)
    ensures Height(b) == k
  {
    if k == 0 then Genesis else Node(X(k - 1), [], Genesis, [], 1)
  }

  /** Y(j) has height 4 + j and cites A(3) when j is 0, its parent otherwise. */
  function Y(j: nat): (b: Block)
    ensures Height(b) == 4 + j
  {
    if j == 0 then Node(X(3), [], A(3), [], 2) else Node(Y(j - 1), [], Y(j - 1), [], 2)
  }

  // ---- what a voter goes through ----

  /** The variables after the voter has seen A(1) .. A(k). */
  ghost predicate SawA(st: State, k: nat) {
    && st.hqc == A(if k > 0 then k - 1 else 0) && st.bLock == A(if k > 1 then k - 2 else 0)
    && st.bExec == Genesis && st.vheight == k && st.decided == {Genesis} && st.log == []
    && forall i: nat :: i <= k ==> Has(st, A(i))
  }

  lemma SeeA(st: State, k: nat)
    requires k < 3 && SawA(st, k)
    ensures Deliverable(st, A(k + 1))
    ensures var st1 := FetchAndDeliver(st, A(k + 1));
            && ReceiveProposal(ThreeStep, st1, A(k + 1)).error == NoError
            && SawA(ReceiveProposal(ThreeStep, st1, A(k + 1)).state, k + 1)
            && st1.vheight == k
  {
    hide ReceiveProposal, Deliver;
    assert Has(st, A(k)) && A(k + 1).parent == A(k);
    DeliverChild(st, A(k + 1));
    VoteForA(FetchAndDeliver(st, A(k + 1)), k);
  }

  lemma VoteForA(st: State, k: nat)
    requires k < 3 && SawA(st, k) && Has(st, A(k + 1))
    ensures ReceiveProposal(ThreeStep, st, A(k + 1)).error == NoError
    ensures SawA(ReceiveProposal(ThreeStep, st, A(k + 1)).state, k + 1)
  {
    assert Has(st, A(k)) && QcRef(A(k + 1)) == A(k);
    if k > 0 {
      assert QcRef(A(k)) == A(k - 1) && Has(st, A(k - 1));
    }
    if k > 1 {
      assert Has(st, A(k - 2));
    }
    assert k == 0 ==> Extends(A(k + 1), Genesis);
  }

  ghost predicate HasX(st: State, k: nat) {
    SawA(st, 3) && forall i: nat :: i <= k ==> Has(st, X(i))
  }

  lemma SeeX(st: State, k: nat)
    requires HasX(st, k)
    ensures Deliverable(st, X(k + 1)) && HasX(FetchAndDeliver(st, X(k + 1)), k + 1)
  {
    hide FetchAndDeliver, Deliverable, A, X;
    NextX(k);
    assert Has(st, X(k)) && Has(st, A(0));
    DeliverChild(st, X(k + 1));
  }

  /** The variables after the voter has also seen Y(0) .. Y(j). */
  ghost predicate SawY(st: State, j: nat) {
    && st.hqc == (if j == 0 then A(3) else Y(j - 1))
    && st.bLock == (if j == 0 then A(2) else if j == 1 then A(3) else Y(j - 2))
    && st.bExec == A(1) && st.decided == {Genesis, A(1)} && st.log == [A(1)] && st.vheight == 4 + j
    && (forall i: nat :: i <= 3 ==> Has(st, A(i)) && Has(st, X(i)))
    && (forall i: nat :: i <= j ==> Has(st, Y(i)))
  }

  lemma SmallBranches()
    ensures A(1) == Node(Genesis, [], Genesis, [], 0)
    ensures Branch(A(1)) == [A(1)] && Above(A(1), 0) == [A(1)]
    ensures Y(0).parent == X(3) && Y(0).qcBlock == A(3)
    ensures A(2).parent == A(1) && A(3).parent == A(2) && A(2).qcBlock == A(1) && A(3).qcBlock == A(2)
    ensures X(1) != A(1) && X(3) != A(3) && X(2) != A(2)
  {
    assert A(1).parent == A(0);
  }

  lemma SeeY0(st: State)
    requires HasX(st, 3)
    ensures Deliverable(st, Y(0))
    ensures var st1 := FetchAndDeliver(st, Y(0));
            && ReceiveProposal(ThreeStep, st1, Y(0)).error == NoError
            && SawY(ReceiveProposal(ThreeStep, st1, Y(0)).state, 0)
            && st1.vheight == 3
  {
    hide Deliverable, FetchAndDeliver, ReceiveProposal, A, X, Y;
    FirstY();
    assert Has(st, X(3)) && Has(st, A(3));
    DeliverChild(st, Y(0));
    VoteForY0(FetchAndDeliver(st, Y(0)));
  }

  lemma VoteForY0(st: State)
    requires HasX(st, 3) && Has(st, Y(0))
    ensures ReceiveProposal(ThreeStep, st, Y(0)).error == NoError
    ensures SawY(ReceiveProposal(ThreeStep, st, Y(0)).state, 0)
  {
    hide Update, A, X, Y;
    FirstY();
    NextA(2);
    assert Has(st, A(3));
    UpdateY0(st);
  }

  lemma UpdateY0(st: State)
    requires SawA(st, 3) && Has(st, Y(0))
    ensures Update(ThreeStep, st, Y(0)) ==
            Outcome(st.(hqc := A(3), bLock := A(2), bExec := A(1), decided := {Genesis, A(1)}, log := [A(1)]), NoError)
  {
    SmallBranches();
    assert Has(st, A(3)) && Has(st, A(2)) && Has(st, A(1));
    var st2 := st.(hqc := A(3), bLock := A(2));
    assert BeforeCommit(ThreeStep, st, Y(0)) == (st2, Some(A(1)));
    assert st2.decided + Members([A(1)]) == {Genesis, A(1)};
  }

  lemma SeeY(st: State, j: nat)
    requires j < 2 && SawY(st, j)
    ensures Deliverable(st, Y(j + 1))
    ensures var b := Y(j + 1);
            var st1 := FetchAndDeliver(st, b);
            && ReceiveProposal(ThreeStep, st1, b).error == NoError
            && SawY(ReceiveProposal(ThreeStep, st1, b).state, j + 1)
            && st1.vheight == 4 + j
  {
    hide ReceiveProposal, Deliverable, FetchAndDeliver, A, X, Y;
    NextY(j);
    assert Has(st, Y(j));
    DeliverChild(st, Y(j + 1));
    VoteForY(FetchAndDeliver(st, Y(j + 1)), j);
  }

  lemma VoteForY(st: State, j: nat)
    requires j < 2 && SawY(st, j) && Has(st, Y(j + 1))
    ensures ReceiveProposal(ThreeStep, st, Y(j + 1)).error == NoError
    ensures SawY(ReceiveProposal(ThreeStep, st, Y(j + 1)).state, j + 1)
  {
    hide BeforeCommit, Commit;
    assert Has(st, Y(j));
    if j == 0 {
      UpdateY1(st);
    } else {
      UpdateY2(st);
    }
  }

  lemma UpdateY1(st: State)
    requires SawY(st, 0) && Has(st, Y(1))
    ensures Update(ThreeStep, st, Y(1)) == Outcome(st.(hqc := Y(0), bLock := A(3)), NoError)
  {
    SmallBranches();
    assert QcRef(Y(1)) == Y(0);
    assert Has(st, Y(0)) && Has(st, A(3)) && Has(st, A(2));
  }

  lemma UpdateY2(st: State)
    requires SawY(st, 1) && Has(st, Y(2))
    ensures Update(ThreeStep, st, Y(2)) == Outcome(st.(hqc := Y(1), bLock := Y(0)), NoError)
  {
    SmallBranches();
    assert QcRef(Y(2)) == Y(1) && QcRef(Y(1)) == Y(0);
    assert Has(st, Y(1)) && Has(st, Y(0)) && Has(st, A(3));
  }

  /** A voter, given Y(3): the commit loop runs into A(1)'s rival and throws. */
  lemma SeeY3(st: State)
    requires SawY(st, 2)
    ensures Deliverable(st, Y(3)) && FetchAndDeliver(st, Y(3)).log == [A(1)]
    ensures ReceiveProposal(ThreeStep, FetchAndDeliver(st, Y(3)), Y(3)).error == SafetyBreached
  {
    hide ReceiveProposal, Deliverable, FetchAndDeliver, A, X, Y;
    NextY(2);
    assert Has(st, Y(2));
    DeliverChild(st, Y(3));
    ThrowAtY3(FetchAndDeliver(st, Y(3)));
  }

  lemma ThrowAtY3(st: State)
    requires SawY(st, 2) && Has(st, Y(3))
    ensures ReceiveProposal(ThreeStep, st, Y(3)).error == SafetyBreached
  {
    hide A, X, Y, WalkDown;
    NextY(0);
    NextY(1);
    NextY(2);
    FirstY();
    NotDecidedYet(st);
    RivalOfA1();
    assert Has(st, Y(3)) && Has(st, Y(2)) && Has(st, Y(1)) && Has(st, Y(0));
    assert BeforeCommit(ThreeStep, st, Y(3)).1 == Some(Y(0));
  }

  lemma NotDecidedYet(st: State)
    requires st.decided == {Genesis, A(1)}
    ensures forall j: nat :: Y(j) !in st.decided
  {
    forall j: nat ensures Y(j) !in st.decided {
      assert Height(Y(j)) == 4 + j && Height(A(1)) == 1;
    }
  }

  lemma RivalOfA1()
    ensures WalkDown(Y(0), Height(A(1))) == X(1) != A(1)
  {
    SmallBranches();
    assert WalkDown(Y(0), 1) == WalkDown(X(3), 1) == WalkDown(X(2), 1) == X(1);
  }

  /** The idle replica, given only the rival branch, commits all of it up to Y(0). */
  lemma SeeRival(st: State)
    requires st.hqc == st.bLock == st.bExec == Genesis && st.decided == {Genesis} && st.log == []
    requires forall j: nat :: j <= 3 ==> Has(st, Y(j))
    ensures ReceiveProposal(ThreeStep, st, Y(3)).error == NoError
    ensures ReceiveProposal(ThreeStep, st, Y(3)).state.log == Branch(Y(0))
  {
    SmallBranches();
    assert QcRef(Y(3)) == Y(2) && QcRef(Y(2)) == Y(1) && QcRef(Y(1)) == Y(0);
    assert Has(st, Y(3)) && Has(st, Y(2)) && Has(st, Y(1)) && Has(st, Y(0));
    assert BeforeCommit(ThreeStep, st, Y(3)).1 == Some(Y(0));
    ExtendsGenesis(Y(0));
    WalkFindsAncestor(Y(0), Genesis);
  }

  // ---- the run ----

  /** The blocks that the faulty replicas make up. */
  function MadeUp(): set<Block> {
    {A(1), A(2), A(3), X(1), X(2), X(3), Y(0), Y(1), Y(2), Y(3)}
  }

  lemma AllMadeUp()
    ensures {A(1), A(2), A(3)} <= MadeUp() && {X(1), X(2), X(3)} <= MadeUp() && {Y(0), Y(1), Y(2), Y(3)} <= MadeUp()
  {
    hide A, X, Y;
  }

  lemma NextA(k: nat)
    requires k < 3
    ensures A(k + 1) in MadeUp() && QcRef(A(k + 1)) == A(k)
  {
    hide MadeUp;
    AllMadeUp();
    assert A(k + 1) in {A(1), A(2), A(3)};
  }

  lemma NextX(k: nat)
    ensures X(k + 1) == Node(X(k), [], Genesis, [], 1) && A(0) == X(0) == Genesis
    ensures k < 3 ==> X(k + 1) in MadeUp()
  {
    hide MadeUp;
    AllMadeUp();
    assert k < 3 ==> X(k + 1) in {X(1), X(2), X(3)};
  }

  lemma NextY(j: nat)
    ensures j < 3 ==> Y(j + 1) in MadeUp()
    ensures Y(j + 1) == Node(Y(j), [], Y(j), [], 2)
  {
    hide MadeUp;
    AllMadeUp();
    assert j < 3 ==> Y(j + 1) in {Y(0), Y(1), Y(2), Y(3)};
  }

  lemma FirstY()
    ensures Y(0) in MadeUp() && Y(0) == Node(X(3), [], A(3), [], 2) && A(3) in MadeUp()
  {
    hide MadeUp;
    AllMadeUp();
  }

  /** The idle replica has seen nothing, the voters have seen A(1) .. A(k). */
  ghost predicate StageA(cfg: Config, idle: ReplicaId, s: System, k: nat) {
    && AtStake(cfg, idle) && Running(cfg, s) && s.injected == MadeUp() && s.reps[idle].core == InitState(cfg.n)
    && (forall r :: r in Voters(cfg, idle) ==> SawA(s.reps[r].core, k))
    && Certified(cfg, s.ballots, A(k))
  }

  lemma SeesA(cfg: Config, st: State, k: nat)
    requires cfg.build.ThreeStep? && k < 3 && SawA(st, k)
    ensures CanSee(cfg, st, A(k + 1)) && SawA(Seen(cfg, st, A(k + 1)), k + 1)
  {
    hide Deliverable, FetchAndDeliver, ReceiveProposal, A;
    SeeA(st, k);
  }

  lemma RoundA(cfg: Config, idle: ReplicaId, s: System, k: nat) returns (s': System)
    requires k < 3 && StageA(cfg, idle, s, k)
    ensures StageA(cfg, idle, s', k + 1)
  {
    hide SawA, Reachable, CanSee, Seen, A, MadeUp, Certified;
    forall r | r in Voters(cfg, idle)
      ensures CanSee(cfg, s.reps[r].core, A(k + 1)) && SawA(Seen(cfg, s.reps[r].core, A(k + 1)), k + 1)
    {
      SeesA(cfg, s.reps[r].core, k);
    }
    NextA(k);
    s' := Round(cfg, s, idle, A(k + 1));
  }

  ghost predicate StageX(cfg: Config, idle: ReplicaId, s: System, k: nat) {
    && AtStake(cfg, idle) && Running(cfg, s) && s.injected == MadeUp() && s.reps[idle].core == InitState(cfg.n)
    && (forall r :: r in Voters(cfg, idle) ==> HasX(s.reps[r].core, k))
    && Certified(cfg, s.ballots, A(3))
  }

  lemma DeliverX(cfg: Config, idle: ReplicaId, s: System, k: nat) returns (s': System)
    requires k < 3 && StageX(cfg, idle, s, k)
    ensures StageX(cfg, idle, s', k + 1)
  {
    hide HasX, Reachable, Deliverable, FetchAndDeliver, A, X, MadeUp;
    forall r | r in Voters(cfg, idle)
      ensures Deliverable(s.reps[r].core, X(k + 1)) && HasX(FetchAndDeliver(s.reps[r].core, X(k + 1)), k + 1)
    {
      SeeX(s.reps[r].core, k);
    }
    NextX(k);
    s' := DeliverAll(cfg, s, Voters(cfg, idle), X(k + 1));
  }

  ghost predicate StageY(cfg: Config, idle: ReplicaId, s: System, j: nat) {
    && AtStake(cfg, idle) && Running(cfg, s) && s.injected == MadeUp() && s.reps[idle].core == InitState(cfg.n)
    && (forall r :: r in Voters(cfg, idle) ==> SawY(s.reps[r].core, j))
    && Certified(cfg, s.ballots, A(3)) && forall i: nat :: i <= j ==> Certified(cfg, s.ballots, Y(i))
  }

  lemma SeesY0(cfg: Config, st: State)
    requires cfg.build.ThreeStep? && HasX(st, 3)
    ensures CanSee(cfg, st, Y(0)) && SawY(Seen(cfg, st, Y(0)), 0)
  {
    hide Deliverable, FetchAndDeliver, ReceiveProposal, A, X, Y;
    SeeY0(st);
  }

  lemma RoundY0(cfg: Config, idle: ReplicaId, s: System) returns (s': System)
    requires StageX(cfg, idle, s, 3)
    ensures StageY(cfg, idle, s', 0)
  {
    hide HasX, SawY, Reachable, CanSee, Seen, A, X, Y, MadeUp, Certified;
    forall r | r in Voters(cfg, idle)
      ensures CanSee(cfg, s.reps[r].core, Y(0)) && SawY(Seen(cfg, s.reps[r].core, Y(0)), 0)
    {
      SeesY0(cfg, s.reps[r].core);
    }
    FirstY();
    s' := Round(cfg, s, idle, Y(0));
    CertifiedGrows(cfg, s.ballots, s'.ballots, A(3));
  }

  lemma SeesY(cfg: Config, st: State, j: nat)
    requires cfg.build.ThreeStep? && j < 2 && SawY(st, j)
    ensures CanSee(cfg, st, Y(j + 1)) && SawY(Seen(cfg, st, Y(j + 1)), j + 1)
  {
    hide Deliverable, FetchAndDeliver, ReceiveProposal, A, X, Y;
    SeeY(st, j);
  }

  lemma RoundY(cfg: Config, idle: ReplicaId, s: System, j: nat) returns (s': System)
    requires j < 2 && StageY(cfg, idle, s, j)
    ensures StageY(cfg, idle, s', j + 1)
  {
    hide SawY, Reachable, CanSee, Seen, A, X, Y, MadeUp, Certified;
    forall r | r in Voters(cfg, idle)
      ensures CanSee(cfg, s.reps[r].core, Y(j + 1)) && SawY(Seen(cfg, s.reps[r].core, Y(j + 1)), j + 1)
    {
      SeesY(cfg, s.reps[r].core, j);
    }
    NextY(j);
    s' := Round(cfg, s, idle, Y(j + 1));
    CertifiedGrows(cfg, s.ballots, s'.ballots, A(3));
    forall i: nat | i <= j + 1 ensures Certified(cfg, s'.ballots, Y(i)) {
      if i <= j {
        CertifiedGrows(cfg, s.ballots, s'.ballots, Y(i));
      }
    }
  }

  /** The idle replica's own variables are still the initial ones. */
  ghost predicate Idle(st: State) {
    st.hqc == st.bLock == st.bExec == Genesis && st.decided == {Genesis} && st.log == []
  }

  ghost predicate StageR(cfg: Config, idle: ReplicaId, s: System) {
    && AtStake(cfg, idle) && Running(cfg, s) && s.injected == MadeUp()
    && (forall r :: r in Voters(cfg, idle) ==> SawY(s.reps[r].core, 2))
    && Certified(cfg, s.ballots, A(3)) && (forall i: nat :: i <= 2 ==> Certified(cfg, s.ballots, Y(i)))
    && Idle(s.reps[idle].core) && Has(s.reps[idle].core, Genesis) && A(3) in s.reps[idle].core.fetched
  }

  lemma RivalDelivered(cfg: Config, idle: ReplicaId, s: System) returns (s': System)
    requires StageY(cfg, idle, s, 2)
    ensures StageR(cfg, idle, s') && forall j: nat :: j <= 3 ==> Has(s'.reps[idle].core, Y(j))
  {
    hide StageR, StageY, A, X, Y;
    s' := RivalStarts(cfg, idle, s);
    s' := RivalX(cfg, idle, s', 0);
    s' := RivalX(cfg, idle, s', 1);
    s' := RivalX(cfg, idle, s', 2);
    s' := RivalY0(cfg, idle, s');
    s' := RivalYs(cfg, idle, s');
  }

  lemma RivalStarts(cfg: Config, idle: ReplicaId, s: System) returns (s': System)
    requires StageY(cfg, idle, s, 2)
    ensures StageR(cfg, idle, s') && Has(s'.reps[idle].core, X(0))
  {
    hide SawY, Reachable, A, Y, MadeUp;
    FirstY();
    NextX(0);
    s' := DoFetch(cfg, s, idle, A(3));
  }

  lemma RivalYs(cfg: Config, idle: ReplicaId, s: System) returns (s': System)
    requires StageR(cfg, idle, s) && Has(s.reps[idle].core, Y(0))
    ensures StageR(cfg, idle, s') && forall j: nat :: j <= 3 ==> Has(s'.reps[idle].core, Y(j))
  {
    hide StageR, A, X, Y;
    s' := RivalY(cfg, idle, s, 0);
    s' := RivalY(cfg, idle, s', 1);
    s' := RivalY(cfg, idle, s', 2);
  }

  lemma RivalX(cfg: Config, idle: ReplicaId, s: System, k: nat) returns (s': System)
    requires k < 3 && StageR(cfg, idle, s) && Has(s.reps[idle].core, X(k))
    ensures StageR(cfg, idle, s') && Has(s'.reps[idle].core, X(k + 1))
  {
    hide SawY, Reachable, Deliverable, FetchAndDeliver, Certified, A, X, Y, MadeUp;
    NextX(k);
    DeliverChild(s.reps[idle].core, X(k + 1));
    s' := DoDeliver(cfg, s, idle, X(k + 1));
  }

  lemma RivalY0(cfg: Config, idle: ReplicaId, s: System) returns (s': System)
    requires StageR(cfg, idle, s) && Has(s.reps[idle].core, X(3))
    ensures StageR(cfg, idle, s') && Has(s'.reps[idle].core, Y(0))
  {
    hide SawY, Reachable, Deliverable, FetchAndDeliver, Certified, A, X, Y, MadeUp;
    FirstY();
    DeliverChild(s.reps[idle].core, Y(0));
    s' := DoDeliver(cfg, s, idle, Y(0));
  }

  lemma RivalY(cfg: Config, idle: ReplicaId, s: System, j: nat) returns (s': System)
    requires j < 3 && StageR(cfg, idle, s) && (forall i: nat :: i <= j ==> Has(s.reps[idle].core, Y(i)))
    ensures StageR(cfg, idle, s') && (forall i: nat :: i <= j + 1 ==> Has(s'.reps[idle].core, Y(i)))
  {
    hide SawY, Reachable, Deliverable, FetchAndDeliver, Certified, A, X, Y, MadeUp;
    var b := Y(j + 1);
    NextY(j);
    assert Has(s.reps[idle].core, Y(j));
    DeliverChild(s.reps[idle].core, b);
    s' := DoDeliver(cfg, s, idle, b);
  }

  /** With at least one faulty replica, whatever the number of replicas, the three-step build can reach
      a state in which every voter has committed A(1), the idle replica has committed X(1) in its
      place, and the next proposal would make the voters throw.  The one block made up by a faulty
      replica that does not cite an ancestor is Y(0). */
  lemma AgreementFailsWithoutAncestry(cfg: Config, idle: ReplicaId, voter: ReplicaId) returns (run: seq<System>)
    requires AtStake(cfg, idle) && Correct(cfg, voter) && voter != idle
    ensures IsRun(cfg, run)
    ensures forall b :: b in run[|run| - 1].injected && b != Y(0) ==> AncestralQc(b)
    ensures !AncestralQc(Y(0))
    ensures |run[|run| - 1].reps| == cfg.n
    ensures !Comparable(run[|run| - 1].reps[idle].core.log, run[|run| - 1].reps[voter].core.log)
    ensures ReceiveProposal(ThreeStep, run[|run| - 1].reps[voter].core, Y(3)).error == SafetyBreached
  {
    var s := BeforeTheConflict(cfg, idle);
    s := Conflict(cfg, idle, voter, s);
    LogsConflict();
    BlockFacts();
    run :| IsRun(cfg, run) && run[|run| - 1] == s;
  }

  lemma Conflict(cfg: Config, idle: ReplicaId, voter: ReplicaId, s: System) returns (s': System)
    requires StageR(cfg, idle, s) && Correct(cfg, voter) && voter != idle
    requires forall j: nat :: j <= 3 ==> Has(s.reps[idle].core, Y(j))
    ensures Running(cfg, s') && s'.injected == MadeUp()
    ensures s'.reps[idle].core.log == Branch(Y(0)) && s'.reps[voter].core.log == [A(1)]
    ensures ReceiveProposal(ThreeStep, s'.reps[voter].core, Y(3)).error == SafetyBreached
  {
    hide Reachable, ReceiveProposal, Deliverable, FetchAndDeliver, SawY, Certified, A, Y, MadeUp, Branch;
    assert voter in Voters(cfg, idle);
    SeeRival(s.reps[idle].core);
    SeeY3(s.reps[voter].core);
    var s1 := DoGet(cfg, s, idle, Y(3));
    CertifiedGrows(cfg, s.ballots, s1.ballots, Y(2));
    NextY(2);
    s' := DoDeliver(cfg, s1, voter, Y(3));
  }

  lemma BeforeTheConflict(cfg: Config, idle: ReplicaId) returns (s: System)
    requires AtStake(cfg, idle)
    ensures StageR(cfg, idle, s) && forall j: nat :: j <= 3 ==> Has(s.reps[idle].core, Y(j))
  {
    hide StageX, StageY, AtStake;
    s := VotersSawA(cfg, idle);
    s := DeliverX(cfg, idle, s, 0);
    s := DeliverX(cfg, idle, s, 1);
    s := DeliverX(cfg, idle, s, 2);
    s := RoundY0(cfg, idle, s);
    s := RoundY(cfg, idle, s, 0);
    s := RoundY(cfg, idle, s, 1);
    s := RivalDelivered(cfg, idle, s);
  }

  lemma VotersSawA(cfg: Config, idle: ReplicaId) returns (s: System)
    requires AtStake(cfg, idle)
    ensures StageX(cfg, idle, s, 0)
  {
    hide Reachable, MadeUp, SawA, A, X;
    s := NothingSeen(cfg, idle);
    s := RoundA(cfg, idle, s, 0);
    s := RoundA(cfg, idle, s, 1);
    s := RoundA(cfg, idle, s, 2);
    forall r | r in Voters(cfg, idle) ensures HasX(s.reps[r].core, 0) {
      HasGenesis(s.reps[r].core);
    }
  }

  lemma HasGenesis(st: State)
    requires SawA(st, 3)
    ensures HasX(st, 0)
  {
    assert Has(st, A(0));
  }

  lemma NothingSeen(cfg: Config, idle: ReplicaId) returns (s: System)
    requires AtStake(cfg, idle)
    ensures StageA(cfg, idle, s, 0)
  {
    hide Reachable, MadeUp;
    Start(cfg);
    s := DoInject(cfg, InitSystem(cfg), MadeUp());
    assert {} + MadeUp() == MadeUp();
  }

  lemma LogsConflict()
    ensures !Comparable(Branch(Y(0)), [A(1)])
  {
    SmallBranches();
    assert Branch(Y(0)) == Branch(X(3)) + [Y(0)];
    assert Branch(X(3)) == Branch(X(2)) + [X(3)] == Branch(X(1)) + [X(2)] + [X(3)];
    assert Branch(X(1)) == [X(1)];
    assert Branch(Y(0))[0] == X(1);
  }

  lemma BlockFacts()
    ensures forall b :: b in MadeUp() && b != Y(0) ==> AncestralQc(b)
    ensures !AncestralQc(Y(0))
  {
    SmallBranches();
    ExtendsGenesis(X(0));
    ExtendsGenesis(X(1));
    ExtendsGenesis(X(2));
    assert !Extends(X(3), A(3)) by {
      if Extends(X(3), A(3)) {
        ExtendsHeight(X(3), A(3));
      }
    }
  }

  /** The logs of any two correct replicas at any two moments of any run are prefixes of one sequence. */
  ghost predicate AlwaysAgrees(cfg: Config) {
    forall run: seq<System>, i: nat, p: ReplicaId, j: nat, q: ReplicaId |
      IsRun(cfg, run) && Within(cfg, run, i, p) && Within(cfg, run, j, q) ::
      Comparable(run[i].reps[p].core.log, run[j].reps[q].core.log)
  }

  ghost predicate Within(cfg: Config, run: seq<System>, i: nat, r: ReplicaId) {
    i < |run| && |run[i].reps| == cfg.n && Correct(cfg, r)
  }

  /** With blocks left unchecked, agreement holds in all runs exactly in the two-step build, or when
      no replica is faulty. */
  lemma AgreementIsExact(cfg: Config)
    requires ValidConfig(cfg)
    ensures AlwaysAgrees(cfg) <==> cfg.build.TwoStep? || cfg.faulty == {}
  {
    if cfg.build.TwoStep? || cfg.faulty == {} {
      forall run: seq<System>, i: nat, p: ReplicaId, j: nat, q: ReplicaId |
        IsRun(cfg, run) && Within(cfg, run, i, p) && Within(cfg, run, j, q)
        ensures Comparable(run[i].reps[p].core.log, run[j].reps[q].core.log)
      {
        AgreesHere(cfg, run, i, p, j, q);
      }
    } else {
      var idle, voter := TwoCorrect(cfg);
      var run := AgreementFailsWithoutAncestry(cfg, idle, voter);
      assert Within(cfg, run, |run| - 1, idle) && Within(cfg, run, |run| - 1, voter);
    }
  }

  lemma AgreesHere(cfg: Config, run: seq<System>, i: nat, p: ReplicaId, j: nat, q: ReplicaId)
    requires ValidConfig(cfg) && (cfg.build.TwoStep? || cfg.faulty == {})
    requires IsRun(cfg, run) && Within(cfg, run, i, p) && Within(cfg, run, j, q)
    ensures Comparable(run[i].reps[p].core.log, run[j].reps[q].core.log)
  {
    hide Comparable, CanStep;
    if cfg.faulty == {} {
      NothingMadeUp(cfg, run, |run| - 1);
    }
    Agreement(cfg, run, i, p, j, q);
  }

  /** No correct replica can be made to throw "safety breached". */
  ghost predicate NeverBreached(cfg: Config) {
    forall run: seq<System>, i: nat, r: ReplicaId | IsRun(cfg, run) && Within(cfg, run, i, r) ::
      NoBreach(cfg, run[i].reps[r])
  }

  /** Neither by a proposal received, nor by one of its own. */
  ghost predicate NoBreach(cfg: Config, rep: Replica) {
    && (forall b :: ReceiveProposal(cfg.build, rep.core, b).error != SafetyBreached)
    && (forall cmds, extra :: Propose(cfg.build, rep.core, rep.hqcTail, cmds, extra).error != SafetyBreached)
  }

  /** And the same goes for the throw. */
  lemma BreachIsExact(cfg: Config)
    requires ValidConfig(cfg)
    ensures NeverBreached(cfg) <==> cfg.build.TwoStep? || cfg.faulty == {}
  {
    if cfg.build.TwoStep? || cfg.faulty == {} {
      forall run: seq<System>, i: nat, r: ReplicaId | IsRun(cfg, run) && Within(cfg, run, i, r)
        ensures NoBreach(cfg, run[i].reps[r])
      {
        NoBreachHere(cfg, run, i, r);
      }
    } else {
      var idle, voter := TwoCorrect(cfg);
      var run := AgreementFailsWithoutAncestry(cfg, idle, voter);
      assert Within(cfg, run, |run| - 1, voter);
    }
  }

  lemma NoBreachHere(cfg: Config, run: seq<System>, i: nat, r: ReplicaId)
    requires ValidConfig(cfg) && (cfg.build.TwoStep? || cfg.faulty == {})
    requires IsRun(cfg, run) && Within(cfg, run, i, r)
    ensures NoBreach(cfg, run[i].reps[r])
  {
    hide CanStep, ReceiveProposal, Propose;
    if cfg.faulty == {} {
      NothingMadeUp(cfg, run, i);
    }
    var rep := run[i].reps[r];
    forall b ensures ReceiveProposal(cfg.build, rep.core, b).error != SafetyBreached {
      SafetyNeverBreached(cfg, run, i, r, b, [], 0);
    }
    forall cmds, extra ensures Propose(cfg.build, rep.core, rep.hqcTail, cmds, extra).error != SafetyBreached {
      SafetyNeverBreached(cfg, run, i, r, Genesis, cmds, extra);
    }
  }
}
