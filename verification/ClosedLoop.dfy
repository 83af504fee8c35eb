/** The closed loop of the client and a fixed proposer, in counters: how many commands a client must
    keep outstanding for anything to be committed at all, and what is left over when it stops.

    A proposer forms a block whenever blk_size commands and the last certificate are there, a replica
    that has processed the first g blocks has committed the first max(0, g - 3) of them (g - 2 in the
    two-step build), and each replica answers every command of a block it commits.  ComposedLoop proves
    that the client, the proposer and the replicas move the counters as the events here say.
  */
module ClosedLoop {
  import opened Core
  import opened Arithmetic
  import opened Quorums
  import opened LeaderChain

  /** Replicas, build, commands kept outstanding by the client, commands per block, and how many
      commands the client sends in all, any negative number meaning no limit. */
  datatype Params = Params(n: nat, build: Build, maxAsync: nat, blkSize: nat, iters: int)

  predicate ValidParams(p: Params) {
    p.n > 0 && p.blkSize > 0
  }

  datatype Loop = Loop(
    left: int,            // max_iter_num, counted down while it is positive
    sent: nat,            // commands the client has sent
    arrived: nat,         // of those, commands the proposer has received
    proposed: nat,        // blocks proposed
    certified: bool,      // the last block proposed has its certificate
    got: seq<nat>,        // blocks each replica has processed, the proposer being replica 0
    replied: seq<nat>,    // answers of each replica that have reached the client
    confirmed: nat)       // commands the client has dropped from `waiting`

  datatype Event = Send | Arrive | Propose | Process(r: nat) | Certify | Reply(r: nat) | Confirm

  function InitLoop(p: Params): Loop {
    Loop(p.iters, 0, 0, 0, true, seq(p.n, _ => 0), seq(p.n, _ => 0), 0)
  }

  /** Commands in the blocks that a replica has committed after processing g blocks. */
  function Committed(p: Params, g: nat): nat {
    p.blkSize * Below(g, Lag(p.build))
  }

  /** How many entries exceed v. */
  function NumAbove(xs: seq<nat>, v: int): nat {
    if xs == [] then 0 else (if xs[0] > v then 1 else 0) + NumAbove(xs[1..], v)
  }

  predicate Enabled(p: Params, s: Loop, e: Event) {
    match e
    case Send => s.sent < s.confirmed + p.maxAsync && s.left != 0
    case Arrive => s.arrived < s.sent
    case Propose => s.certified && s.arrived >= p.blkSize * (s.proposed + 1)
    case Process(r) => r < |s.got| && s.got[r] < s.proposed
    case Certify => !s.certified && NumAbove(s.got, s.proposed - 1) >= Majority(p.n)
    case Reply(r) => r < |s.got| && r < |s.replied| && s.replied[r] < Committed(p, s.got[r])
    case Confirm => s.confirmed < s.sent && NumAbove(s.replied, s.confirmed) >= NFaulty(p.n) + 1
  }

  function Do(s: Loop, e: Event): Loop {
    match e
    case Send => s.(sent := s.sent + 1, left := if s.left > 0 then s.left - 1 else s.left)
    case Arrive => s.(arrived := s.arrived + 1)
    case Propose => s.(proposed := s.proposed + 1, certified := false,
                       got := if s.got != [] then s.got[0 := s.proposed + 1] else s.got)
    case Process(r) => if r < |s.got| then s.(got := s.got[r := s.got[r] + 1]) else s
    case Certify => s.(certified := true)
    case Reply(r) => if r < |s.replied| then s.(replied := s.replied[r := s.replied[r] + 1]) else s
    case Confirm => s.(confirmed := s.confirmed + 1)
  }

  /** The loop after a sequence of events, each enabled when it happens. */
  ghost predicate Reaches(p: Params, es: seq<Event>, s: Loop)
    decreases |es|
  {
    if es == [] then s == InitLoop(p)
    else
      var last := es[|es| - 1];
      exists s0 :: Reaches(p, es[..|es| - 1], s0) && Enabled(p, s0, last) && s == Do(s0, last)
  }

  // ---- what every reachable loop satisfies ----

  ghost predicate LoopInv(p: Params, s: Loop) {
    && |s.got| == |s.replied| == p.n > 0
    && s.got[0] == s.proposed
    && (forall r :: 0 <= r < p.n ==> s.got[r] <= s.proposed && s.replied[r] <= Committed(p, s.got[r]))
    && s.confirmed <= Committed(p, s.proposed)
    && s.arrived <= s.sent <= s.confirmed + p.maxAsync
    && p.blkSize * s.proposed <= s.arrived
    && (if p.iters < 0 then s.left == p.iters else s.left == p.iters - s.sent >= 0)
  }

  lemma {:induction false} SomeAbove(xs: seq<nat>, v: int) returns (r: nat)
    requires NumAbove(xs, v) > 0
    ensures r < |xs| && xs[r] > v
  {
    if xs[0] > v {
      r := 0;
    } else {
      r := SomeAbove(xs[1..], v);
      r := r + 1;
    }
  }

  lemma {:induction false} AllAbove(xs: seq<nat>, v: int)
    requires forall r :: 0 <= r < |xs| ==> xs[r] > v
    ensures NumAbove(xs, v) == |xs|
  {
    if xs != [] {
      AllAbove(xs[1..], v);
    }
  }

  lemma CommittedGrows(p: Params, g: nat, h: nat)
    requires g <= h
    ensures Committed(p, g) <= Committed(p, h)
  {
    var a, b := Below(g, Lag(p.build)), Below(h, Lag(p.build));
    assert p.blkSize * b == p.blkSize * a + p.blkSize * (b - a);
  }

  lemma DoKeepsInv(p: Params, s: Loop, e: Event)
    requires LoopInv(p, s) && Enabled(p, s, e)
    ensures LoopInv(p, Do(s, e))
  {
    hide Committed, NumAbove;
    match e
    case Propose =>
      MulNext(p.blkSize, s.proposed);
      CommittedGrows(p, s.proposed, s.proposed + 1);
    case Process(r) =>
      CommittedGrows(p, s.got[r], s.got[r] + 1);
    case Confirm =>
      var r := SomeAbove(s.replied, s.confirmed);
      CommittedGrows(p, s.got[r], s.proposed);
    case _ =>
  }

  lemma {:induction false} ReachesInv(p: Params, es: seq<Event>, s: Loop)
    requires ValidParams(p) && Reaches(p, es, s)
    ensures LoopInv(p, s)
    decreases |es|
  {
    if es != [] {
      var last := es[|es| - 1];
      var s0 :| Reaches(p, es[..|es| - 1], s0) && Enabled(p, s0, last) && s == Do(s0, last);
      ReachesInv(p, es[..|es| - 1], s0);
      DoKeepsInv(p, s0, last);
    }
  }

  // ---- the threshold ----

  /** Blocks that must be proposed before the first one is committed. */
  function Depth(p: Params): nat {
    Lag(p.build) + 1
  }

  /** With enough commands outstanding and a client that goes on sending the loop is never stuck. */
  lemma NeverStuck(p: Params, s: Loop)
    requires LoopInv(p, s) && p.maxAsync >= Depth(p) * p.blkSize && s.left != 0
    ensures exists e :: Enabled(p, s, e)
  {
    if exists r: nat :: r < p.n && s.got[r] < s.proposed {
      var r: nat :| r < p.n && s.got[r] < s.proposed;
      assert Enabled(p, s, Process(r));
    } else if !s.certified {
      AllAbove(s.got, s.proposed - 1);
      assert Enabled(p, s, Certify);
    } else if exists r: nat :: r < p.n && s.replied[r] < Committed(p, s.got[r]) {
      var r: nat :| r < p.n && s.replied[r] < Committed(p, s.got[r]);
      assert Enabled(p, s, Reply(r));
    } else if s.confirmed < Committed(p, s.proposed) {
      AllAbove(s.replied, s.confirmed);
      CommittedAtMostArrived(p, s);
      assert Enabled(p, s, Confirm);
    } else if s.sent < s.confirmed + p.maxAsync {
      assert Enabled(p, s, Send);
    } else if s.arrived < s.sent {
      assert Enabled(p, s, Arrive);
    } else {
      EnoughForNextBlock(p, s);
      assert Enabled(p, s, Propose);
    }
  }

  lemma CommittedAtMostArrived(p: Params, s: Loop)
    requires LoopInv(p, s)
    ensures Committed(p, s.proposed) <= s.arrived
  {
    var d := s.proposed - Below(s.proposed, Lag(p.build));
    assert p.blkSize * s.proposed == Committed(p, s.proposed) + p.blkSize * d;
  }

  lemma EnoughForNextBlock(p: Params, s: Loop)
    requires s.arrived == s.sent && s.sent >= s.confirmed + p.maxAsync && s.confirmed >= Committed(p, s.proposed)
    requires p.maxAsync >= Depth(p) * p.blkSize
    ensures s.arrived >= p.blkSize * (s.proposed + 1)
  {
    var c := Below(s.proposed, Lag(p.build));
    assert p.blkSize * (c + Depth(p)) == p.blkSize * c + Depth(p) * p.blkSize;
    assert c + Depth(p) >= s.proposed + 1;
    assert p.blkSize * (c + Depth(p)) == p.blkSize * (s.proposed + 1) + p.blkSize * (c + Depth(p) - s.proposed - 1);
  }

  /** With fewer, nothing is ever committed by any replica or confirmed by the client. */
  ghost predicate NothingCommitted(p: Params, s: Loop) {
    && s.proposed <= Lag(p.build) && s.confirmed == 0
    && forall r :: 0 <= r < |s.got| ==> Committed(p, s.got[r]) == 0
  }

  lemma FewNeverCommit(p: Params, s: Loop)
    requires LoopInv(p, s) && p.maxAsync < Depth(p) * p.blkSize
    requires s.proposed <= Lag(p.build)
    ensures NothingCommitted(p, s)
    ensures !(Enabled(p, s, Propose) && s.proposed == Lag(p.build))
  {
  }

  lemma StaysBelow(p: Params, s: Loop, e: Event)
    requires LoopInv(p, s) && p.maxAsync < Depth(p) * p.blkSize && NothingCommitted(p, s) && Enabled(p, s, e)
    ensures NothingCommitted(p, Do(s, e))
  {
    FewNeverCommit(p, s);
    DoKeepsInv(p, s, e);
    FewNeverCommit(p, Do(s, e));
  }

  lemma {:induction false} BelowThreshold(p: Params, es: seq<Event>, s: Loop)
    requires ValidParams(p) && p.maxAsync < Depth(p) * p.blkSize && Reaches(p, es, s)
    ensures NothingCommitted(p, s)
    decreases |es|
  {
    if es != [] {
      var last := es[|es| - 1];
      var s0 :| Reaches(p, es[..|es| - 1], s0) && Enabled(p, s0, last) && s == Do(s0, last);
      BelowThreshold(p, es[..|es| - 1], s0);
      ReachesInv(p, es[..|es| - 1], s0);
      StaysBelow(p, s0, last);
    }
  }

  // ---- when every run ends ----

  /** The client sends only so many commands, or keeps too few outstanding. */
  predicate Bounded(p: Params) {
    p.iters >= 0 || p.maxAsync < Depth(p) * p.blkSize
  }

  function Sum(xs: seq<nat>): nat {
    if xs == [] then 0 else xs[0] + Sum(xs[1..])
  }

  lemma {:induction false} SumUpdate(xs: seq<nat>, i: nat, v: nat)
    requires i < |xs|
    ensures Sum(xs[i := v]) == Sum(xs) - xs[i] + v
  {
    if i > 0 {
      assert xs[i := v][1..] == xs[1..][i - 1 := v];
      SumUpdate(xs[1..], i - 1, v);
    } else {
      assert xs[0 := v][1..] == xs[1..];
    }
  }

  lemma {:induction false} SumBound(xs: seq<nat>, v: nat)
    requires forall i :: 0 <= i < |xs| ==> xs[i] <= v
    ensures Sum(xs) <= |xs| * v
  {
    if xs != [] {
      SumBound(xs[1..], v);
      assert |xs| * v == v + (|xs| - 1) * v;
    }
  }

  /** Grows with every event. */
  function Progress(s: Loop): nat {
    s.sent + s.arrived + 2 * s.proposed + (if s.certified then 1 else 0) + Sum(s.got) + Sum(s.replied) + s.confirmed
  }

  lemma DoProgresses(p: Params, s: Loop, e: Event)
    requires LoopInv(p, s) && Enabled(p, s, e)
    ensures Progress(Do(s, e)) > Progress(s)
  {
    match e
    case Propose => SumUpdate(s.got, 0, s.proposed + 1);
    case Process(r) => SumUpdate(s.got, r, s.got[r] + 1);
    case Reply(r) => SumUpdate(s.replied, r, s.replied[r] + 1);
    case _ =>
  }

  lemma {:induction false} LengthIsProgress(p: Params, es: seq<Event>, s: Loop)
    requires ValidParams(p) && Reaches(p, es, s)
    ensures |es| <= Progress(s)
    decreases |es|
  {
    if es != [] {
      var last := es[|es| - 1];
      var s0 :| Reaches(p, es[..|es| - 1], s0) && Enabled(p, s0, last) && s == Do(s0, last);
      LengthIsProgress(p, es[..|es| - 1], s0);
      ReachesInv(p, es[..|es| - 1], s0);
      DoProgresses(p, s0, last);
    }
  }

  function LongestRun(p: Params): nat {
    if p.maxAsync < Depth(p) * p.blkSize then 2 * p.maxAsync + 2 * Lag(p.build) + 1 + p.n * Lag(p.build)
    else if p.iters >= 0 then 5 * p.iters + 1 + 2 * (p.n * p.iters)
    else 0
  }

  lemma RunsEnd(p: Params, es: seq<Event>, s: Loop)
    requires ValidParams(p) && Bounded(p) && Reaches(p, es, s)
    ensures |es| <= LongestRun(p)
  {
    ReachesInv(p, es, s);
    LengthIsProgress(p, es, s);
    if p.maxAsync < Depth(p) * p.blkSize {
      BelowThreshold(p, es, s);
      SumBound(s.got, Lag(p.build));
      SumBound(s.replied, 0);
    } else {
      CountersBounded(p, s);
    }
  }

  lemma CountersBounded(p: Params, s: Loop)
    requires ValidParams(p) && LoopInv(p, s) && p.iters >= 0
    ensures s.sent <= p.iters && s.arrived <= p.iters && s.proposed <= p.iters && s.confirmed <= p.iters
    ensures Sum(s.got) <= p.n * p.iters && Sum(s.replied) <= p.n * p.iters
  {
    MulMonotone(1, p.blkSize, s.proposed);
    CommittedAtMostArrived(p, s);
    SumBound(s.got, p.iters);
    forall r | 0 <= r < p.n ensures s.replied[r] <= p.iters {
      CommittedGrows(p, s.got[r], s.proposed);
    }
    SumBound(s.replied, p.iters);
  }

  ghost predicate Stuck(p: Params, s: Loop) {
    !exists e :: Enabled(p, s, e)
  }

  lemma ReachesSnoc(p: Params, es: seq<Event>, s: Loop, e: Event)
    requires Reaches(p, es, s) && Enabled(p, s, e)
    ensures Reaches(p, es + [e], Do(s, e))
  {
    var all := es + [e];
    assert all[..|all| - 1] == es && all[|all| - 1] == e;
    assert Reaches(p, all[..|all| - 1], s) && Enabled(p, s, all[|all| - 1]);
  }

  lemma RunUntilStuck(p: Params, es: seq<Event>, s: Loop) returns (es': seq<Event>, s': Loop)
    requires ValidParams(p) && Bounded(p) && Reaches(p, es, s)
    ensures Reaches(p, es', s') && Stuck(p, s')
    decreases LongestRun(p) - |es|
  {
    RunsEnd(p, es, s);
    if Stuck(p, s) {
      es', s' := es, s;
    } else {
      var e :| Enabled(p, s, e);
      ReachesSnoc(p, es, s, e);
      RunsEnd(p, es + [e], Do(s, e));
      es', s' := RunUntilStuck(p, es + [e], Do(s, e));
    }
  }

  /** Exactly when the loop can reach a state in which nothing more can happen: the client sends only
      so many commands, or it keeps fewer than four blocks' worth outstanding (three in the two-step
      build). */
  lemma DeadlockThreshold(p: Params)
    requires ValidParams(p)
    ensures (exists es, s :: Reaches(p, es, s) && Stuck(p, s)) <==> p.iters >= 0 || p.maxAsync < Depth(p) * p.blkSize
  {
    if Bounded(p) {
      assert Reaches(p, [], InitLoop(p));
      var es, s := RunUntilStuck(p, [], InitLoop(p));
      assert Reaches(p, es, s) && Stuck(p, s);
    } else {
      forall es, s | Reaches(p, es, s) ensures !Stuck(p, s) {
        ReachesInv(p, es, s);
        NeverStuck(p, s);
      }
    }
  }

  // ---- what is left over ----

  /** In a stuck state everything sent has been made use of as far as full blocks go. */
  lemma StuckIsDrained(p: Params, s: Loop)
    requires ValidParams(p) && LoopInv(p, s) && Stuck(p, s)
    ensures s.arrived == s.sent && s.confirmed == Committed(p, s.proposed)
    ensures p.blkSize * s.proposed <= s.sent < p.blkSize * (s.proposed + 1)
    ensures s.sent == s.confirmed + p.maxAsync || s.left == 0
  {
    assert !Enabled(p, s, Send) && !Enabled(p, s, Arrive) && !Enabled(p, s, Propose);
    assert !Enabled(p, s, Certify) && !Enabled(p, s, Confirm);
    forall r: nat | r < p.n ensures s.got[r] == s.proposed && s.replied[r] == Committed(p, s.proposed) {
      assert !Enabled(p, s, Process(r)) && !Enabled(p, s, Reply(r));
    }
    AllAbove(s.got, s.proposed - 1);
    if s.confirmed < Committed(p, s.proposed) {
      AllAbove(s.replied, s.confirmed);
      CommittedAtMostArrived(p, s);
    }
  }

  lemma BlocksOf(n: nat, size: nat, blocks: nat)
    requires size > 0 && size * blocks <= n < size * (blocks + 1)
    ensures n / size == blocks
  {
    var q := n / size;
    assert n == q * size + n % size;
    if q < blocks {
      MulMonotone(q + 1, blocks, size);
    } else if blocks < q {
      MulMonotone(blocks + 1, q, size);
    }
  }

  /** The commands that can be confirmed: those of all full blocks but the last three (two). */
  function Confirmable(p: Params): nat
    requires ValidParams(p)
  {
    if p.iters >= 0 then p.blkSize * Below(p.iters / p.blkSize, Lag(p.build)) else 0
  }

  /** Every run that goes on until nothing can happen ends with the same counters.  If enough commands
      are kept outstanding the client has sent all its commands, those of the last three full blocks
      (two) and of the block that was not filled wait for ever, and all others are confirmed; otherwise
      none is confirmed. */
  lemma LeftOver(p: Params, es: seq<Event>, s: Loop)
    requires ValidParams(p) && Reaches(p, es, s) && Stuck(p, s)
    ensures s.arrived == s.sent && s.proposed == s.sent / p.blkSize
    ensures p.maxAsync >= Depth(p) * p.blkSize ==> s.sent == p.iters && s.confirmed == Confirmable(p)
    ensures p.maxAsync < Depth(p) * p.blkSize ==>
              s.sent == (if 0 <= p.iters < p.maxAsync then p.iters else p.maxAsync) && s.confirmed == 0
  {
    ReachesInv(p, es, s);
    StuckIsDrained(p, s);
    BlocksOf(s.sent, p.blkSize, s.proposed);
    if p.maxAsync < Depth(p) * p.blkSize {
      BelowThreshold(p, es, s);
    } else if s.left != 0 {
      NeverStuck(p, s);
    }
  }
}
