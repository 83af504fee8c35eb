/** Building runs of the protocol: what faulty replicas, and correct ones that vote together with
    them, can bring about. */
module Runs {
  import opened Chain
  import opened Core
  import opened Quorums
  import opened Protocol

  ghost predicate Reachable(cfg: Config, s: System) {
    exists run :: IsRun(cfg, run) && run[|run| - 1] == s
  }

  /** A reachable state, of the right size. */
  ghost predicate Running(cfg: Config, s: System) {
    Reachable(cfg, s) && |s.reps| == cfg.n
  }

  lemma Start(cfg: Config)
    ensures Running(cfg, InitSystem(cfg))
  {
    assert IsRun(cfg, [InitSystem(cfg)]);
  }

  lemma Take(cfg: Config, s: System, e: Event, s': System)
    requires Running(cfg, s) && Next(cfg, s, e, s')
    ensures Running(cfg, s')
  {
    var run :| IsRun(cfg, run) && run[|run| - 1] == s;
    Extend(cfg, run, e, s');
  }

  lemma Extend(cfg: Config, run: seq<System>, e: Event, s': System)
    requires IsRun(cfg, run) && Next(cfg, run[|run| - 1], e, s')
    ensures IsRun(cfg, run + [s']) && (run + [s'])[|run|] == s'
  {
    var run' := run + [s'];
    forall i | 0 < i < |run'| ensures CanStep(cfg, run'[i - 1], run'[i]) {
      if i < |run| {
        assert CanStep(cfg, run[i - 1], run[i]);
      }
    }
  }

  /** A highest tail always exists, so the parent selection never blocks a step. */
  lemma HighestAmong(st: State, ts: set<Block>) returns (t: Block)
    requires ts <= st.tails
    ensures t == st.hqc || (t in st.tails && Extends(t, st.hqc))
    ensures forall x :: x in ts && Extends(x, st.hqc) ==> Height(x) <= Height(t)
  {
    t := st.hqc;
    if ts != {} {
      var y :| y in ts;
      t := HighestAmong(st, ts - {y});
      if Extends(y, st.hqc) && Height(y) > Height(t) {
        t := y;
      }
    }
  }

  lemma TailExists(st: State, tail: Block, st': State) returns (tail': Block)
    ensures TailFollows(st, tail, st', tail')
  {
    if st'.hqc == st.hqc {
      tail' := tail;
    } else {
      tail' := HighestAmong(st', st'.tails);
    }
  }

  predicate Deliverable(st: State, b: Block) {
    Deliver(st.(fetched := st.fetched + {b}), b).error == NoError
  }

  predicate Has(st: State, b: Block) {
    b in st.delivered && b in st.fetched
  }

  lemma DeliverChild(st: State, b: Block)
    requires b.Node? && b.uncles == [] && Has(st, b.parent) && b.qcBlock in st.fetched
    ensures Deliverable(st, b)
    ensures var st1 := FetchAndDeliver(st, b);
            && st1 == st.(fetched := st.fetched + {b}, delivered := st.delivered + {b}, tails := st1.tails)
            && forall x :: Has(st, x) || x == b ==> Has(st1, x)
  {
    assert Parents(b) == [b.parent];
    if b in st.delivered {
      assert st.delivered + {b} == st.delivered;
    }
  }

  /** A run without faulty replicas has no block that is made up. */
  lemma {:induction false} NothingMadeUp(cfg: Config, run: seq<System>, i: nat)
    requires cfg.faulty == {} && IsRun(cfg, run) && i < |run|
    ensures run[i].injected == {}
  {
    if i > 0 {
      NothingMadeUp(cfg, run, i - 1);
      assert CanStep(cfg, run[i - 1], run[i]);
      var e :| Next(cfg, run[i - 1], e, run[i]);
    }
  }

  lemma TwoCorrect(cfg: Config) returns (p: ReplicaId, q: ReplicaId)
    requires ValidConfig(cfg) && cfg.faulty != {}
    ensures Correct(cfg, p) && Correct(cfg, q) && p != q
  {
    var correct := Everyone(cfg.n) - cfg.faulty;
    assert |correct| == cfg.n - |cfg.faulty|;
    assert |cfg.faulty| > 0;
    assert correct != {};
    p :| p in correct;
    assert |correct - {p}| == |correct| - 1;
    assert correct - {p} != {};
    q :| q in correct - {p};
  }

  // ---- what can happen ----

  ghost predicate Takes(cfg: Config, s: System, e: Event) {
    exists s' :: Next(cfg, s, e, s')
  }

  /** The block and the one it cites are fetched, its parents delivered, and its certificate can exist. */
  predicate MayDeliver(cfg: Config, s: System, st: State, b: Block) {
    && b in st.fetched && QcRef(b) in st.fetched && Certified(cfg, s.ballots, QcRef(b))
    && forall p :: p in Parents(b) ==> p in st.delivered
  }

  /** A correct replica takes every input at any time: any proposal, own or received, with its vote or without,
      any vote that was cast, any block ever made, and the delivery of any whose ancestors are there and
      whose certificate can exist.  Faulty ones may make up any block and vote for any. */
  lemma EveryInputIsTaken(cfg: Config, s: System, r: ReplicaId)
    requires |s.reps| == cfg.n && Correct(cfg, r)
    ensures forall b, mute :: Takes(cfg, s, GetProposal(r, b, mute))
    ensures forall cmds, extra, mute :: Takes(cfg, s, MakeProposal(r, cmds, extra, mute))
    ensures forall b :: b in s.reps[r].core.delivered ==> Takes(cfg, s, ShowProposal(r, b))
    ensures forall v, b :: v in Supporters(cfg, s.ballots, b) ==> Takes(cfg, s, GetVote(r, v, b))
    ensures forall b :: b in s.proposed + s.injected ==> Takes(cfg, s, Fetch(r, b))
    ensures forall b :: MayDeliver(cfg, s, s.reps[r].core, b) ==> Takes(cfg, s, DeliverBlock(r, b))
    ensures cfg.faulty != {} ==> forall b :: Takes(cfg, s, Inject(b))
    ensures forall v, b :: v in cfg.faulty ==> Takes(cfg, s, FaultyVote(v, b))
  {
    forall b, mute ensures Takes(cfg, s, GetProposal(r, b, mute)) {
      TakesProposal(cfg, s, r, b, mute);
    }
    forall cmds, extra, mute ensures Takes(cfg, s, MakeProposal(r, cmds, extra, mute)) {
      TakesOwnProposal(cfg, s, r, cmds, extra, mute);
    }
    forall b | b in s.reps[r].core.delivered ensures Takes(cfg, s, ShowProposal(r, b)) {
      var rep := s.reps[r];
      var s' := s.(reps := s.reps[r := rep.(hqcTail := TailOnProposal(rep.core, rep.hqcTail, b))]);
      assert Next(cfg, s, ShowProposal(r, b), s');
    }
    forall v, b | v in Supporters(cfg, s.ballots, b) ensures Takes(cfg, s, GetVote(r, v, b)) {
      TakesVote(cfg, s, r, v, b);
    }
    forall b | b in s.proposed + s.injected ensures Takes(cfg, s, Fetch(r, b)) {
      var s' := WithCore(s, r, s.reps[r].core.(fetched := s.reps[r].core.fetched + {b}));
      assert Next(cfg, s, Fetch(r, b), s');
    }
    TakesDelivery(cfg, s, r);
    forall b | cfg.faulty != {} ensures Takes(cfg, s, Inject(b)) {
      assert Next(cfg, s, Inject(b), s.(injected := s.injected + {b}));
    }
    forall v, b | v in cfg.faulty ensures Takes(cfg, s, FaultyVote(v, b)) {
      assert Next(cfg, s, FaultyVote(v, b), s.(ballots := s.ballots + {Ballot(v, b, Genesis)}));
    }
  }

  lemma TakesProposal(cfg: Config, s: System, r: ReplicaId, b: Block, mute: bool)
    requires |s.reps| == cfg.n && Correct(cfg, r)
    ensures Takes(cfg, s, GetProposal(r, b, mute))
  {
    hide ReceiveProposal;
    var rep := s.reps[r];
    var o := ReceiveProposal(cfg.build, rep.core, b);
    var tail := TailExists(rep.core, rep.hqcTail, o.state);
    var s' := s.(reps := s.reps[r := Replica(o.state, tail)], ballots := s.ballots + CastVote(r, b, rep.core, o, mute));
    assert Next(cfg, s, GetProposal(r, b, mute), s');
  }

  lemma TakesOwnProposal(cfg: Config, s: System, r: ReplicaId, cmds: seq<Command>, extra: nat, mute: bool)
    requires |s.reps| == cfg.n && Correct(cfg, r)
    ensures Takes(cfg, s, MakeProposal(r, cmds, extra, mute))
  {
    hide Propose, TailFollows;
    var rep := s.reps[r];
    var b := NewBlock(rep.core, rep.hqcTail, cmds, extra);
    var o := Propose(cfg.build, rep.core, rep.hqcTail, cmds, extra);
    var tail := TailExists(rep.core, rep.hqcTail, o.state);
    var rep' := Replica(o.state, if o.error == NoError then b else tail);
    var s' := s.(reps := s.reps[r := rep'], proposed := s.proposed + {b},
                 ballots := s.ballots + CastVote(r, b, rep.core, o, mute));
    assert Next(cfg, s, MakeProposal(r, cmds, extra, mute), s');
  }

  lemma TakesVote(cfg: Config, s: System, r: ReplicaId, v: ReplicaId, b: Block)
    requires |s.reps| == cfg.n && Correct(cfg, r) && v in Supporters(cfg, s.ballots, b)
    ensures Takes(cfg, s, GetVote(r, v, b))
  {
    hide ReceiveVote, TailFollows, Supporters;
    var rep := s.reps[r];
    var st := ReceiveVote(rep.core, Majority(cfg.n), v, b).state;
    var tail := TailExists(rep.core, rep.hqcTail, st);
    var s' := s.(reps := s.reps[r := Replica(st, tail)]);
    assert Next(cfg, s, GetVote(r, v, b), s');
  }

  lemma TakesDelivery(cfg: Config, s: System, r: ReplicaId)
    requires |s.reps| == cfg.n && Correct(cfg, r)
    ensures forall b :: MayDeliver(cfg, s, s.reps[r].core, b) ==> Takes(cfg, s, DeliverBlock(r, b))
  {
    var st := s.reps[r].core;
    forall b | MayDeliver(cfg, s, st, b) ensures Takes(cfg, s, DeliverBlock(r, b)) {
      assert Next(cfg, s, DeliverBlock(r, b), WithCore(s, r, Deliver(st, b).state));
    }
  }

  // ---- single steps ----

  lemma DoInject(cfg: Config, s: System, bs: set<Block>) returns (s': System)
    requires Running(cfg, s) && cfg.faulty != {}
    ensures Running(cfg, s') && s' == s.(injected := s.injected + bs)
  {
    s' := s;
    if bs != {} {
      var b :| b in bs;
      s' := DoInject(cfg, s, bs - {b});
      Take(cfg, s', Inject(b), s'.(injected := s'.injected + {b}));
      s' := s'.(injected := s'.injected + {b});
      assert s.injected + (bs - {b}) + {b} == s.injected + bs;
    } else {
      assert s.injected + bs == s.injected;
    }
  }

  function WithCore(s: System, r: ReplicaId, st: State): System
    requires r < |s.reps|
  {
    s.(reps := s.reps[r := s.reps[r].(core := st)])
  }

  lemma DoFetch(cfg: Config, s: System, r: ReplicaId, b: Block) returns (s': System)
    requires Running(cfg, s) && Correct(cfg, r) && b in s.injected
    ensures Running(cfg, s')
    ensures s' == WithCore(s, r, s.reps[r].core.(fetched := s.reps[r].core.fetched + {b}))
  {
    s' := WithCore(s, r, s.reps[r].core.(fetched := s.reps[r].core.fetched + {b}));
    assert Next(cfg, s, Fetch(r, b), s');
    Take(cfg, s, Fetch(r, b), s');
  }

  lemma DoDeliver(cfg: Config, s: System, r: ReplicaId, b: Block) returns (s': System)
    requires Running(cfg, s) && Correct(cfg, r) && b in s.injected && Certified(cfg, s.ballots, QcRef(b))
    requires Deliverable(s.reps[r].core, b)
    ensures Running(cfg, s') && s' == WithCore(s, r, FetchAndDeliver(s.reps[r].core, b))
  {
    var s1 := DoFetch(cfg, s, r, b);
    s' := WithCore(s, r, FetchAndDeliver(s.reps[r].core, b));
    assert Next(cfg, s1, DeliverBlock(r, b), s');
    Take(cfg, s1, DeliverBlock(r, b), s');
  }

  /** Only the replicas of rs have moved, and votes may have been added. */
  ghost predicate OnlyMoved(cfg: Config, s: System, s': System, rs: set<ReplicaId>) {
    && |s'.reps| == |s.reps| == cfg.n && s'.injected == s.injected && s.ballots <= s'.ballots
    && forall q: ReplicaId :: q < cfg.n && q !in rs ==> s'.reps[q] == s.reps[q]
  }

  lemma DoGet(cfg: Config, s: System, r: ReplicaId, b: Block) returns (s': System)
    requires Running(cfg, s) && Correct(cfg, r)
    ensures Running(cfg, s') && OnlyMoved(cfg, s, s', {r})
    ensures Next(cfg, s, GetProposal(r, b, false), s')
    ensures s'.reps[r].core == ReceiveProposal(cfg.build, s.reps[r].core, b).state
    ensures var st := s.reps[r].core;
            s'.ballots == s.ballots + CastVote(r, b, st, ReceiveProposal(cfg.build, st, b), false)
  {
    var rep := s.reps[r];
    var o := ReceiveProposal(cfg.build, rep.core, b);
    var tail := TailExists(rep.core, rep.hqcTail, o.state);
    s' := s.(reps := s.reps[r := Replica(o.state, tail)], ballots := s.ballots + CastVote(r, b, rep.core, o, false));
    assert Next(cfg, s, GetProposal(r, b, false), s');
    Take(cfg, s, GetProposal(r, b, false), s');
  }

  // ---- a block that all voters see ----

  function Seen(cfg: Config, st: State, b: Block): State {
    ReceiveProposal(cfg.build, FetchAndDeliver(st, b), b).state
  }

  predicate CanSee(cfg: Config, st: State, b: Block) {
    && Deliverable(st, b)
    && var o := ReceiveProposal(cfg.build, FetchAndDeliver(st, b), b);
       o.error == NoError && o.state.vheight != FetchAndDeliver(st, b).vheight
  }

  /** A replica fetches b, delivers it, and votes for it. */
  lemma See(cfg: Config, s: System, r: ReplicaId, b: Block) returns (s': System)
    requires Running(cfg, s) && Correct(cfg, r) && b in s.injected && Certified(cfg, s.ballots, QcRef(b))
    requires CanSee(cfg, s.reps[r].core, b)
    ensures Running(cfg, s') && OnlyMoved(cfg, s, s', {r})
    ensures s'.reps[r].core == Seen(cfg, s.reps[r].core, b)
    ensures r in Supporters(cfg, s'.ballots, b)
  {
    var s1 := DoDeliver(cfg, s, r, b);
    s' := DoGet(cfg, s1, r, b);
    assert Ballot(r, b, s'.reps[r].core.bLock) in s'.ballots;
  }

  /** Several replicas see b one after the other. */
  lemma {:induction false} SeeAll(cfg: Config, s: System, rs: set<ReplicaId>, b: Block) returns (s': System)
    requires Running(cfg, s) && b in s.injected && Certified(cfg, s.ballots, QcRef(b))
    requires rs <= Everyone(cfg.n) - cfg.faulty
    requires forall r: ReplicaId :: r in rs ==> CanSee(cfg, s.reps[r].core, b)
    ensures Running(cfg, s') && OnlyMoved(cfg, s, s', rs)
    ensures forall r: ReplicaId :: r in rs ==> s'.reps[r].core == Seen(cfg, s.reps[r].core, b)
    ensures rs <= Supporters(cfg, s'.ballots, b)
    decreases |rs|
  {
    hide CanSee, Seen, Reachable;
    if rs == {} {
      return s;
    }
    var r :| r in rs;
    var s1 := SeeAll(cfg, s, rs - {r}, b);
    CertifiedGrows(cfg, s.ballots, s1.ballots, QcRef(b));
    s' := See(cfg, s1, r, b);
    SupportersGrow(cfg, s1.ballots, s'.ballots, b);
  }

  lemma SupportersGrow(cfg: Config, bs: set<Ballot>, bs': set<Ballot>, b: Block)
    requires bs <= bs'
    ensures Supporters(cfg, bs, b) <= Supporters(cfg, bs', b)
  {
  }

  /** Faulty replicas vote for b as well. */
  lemma {:induction false} FaultyVotes(cfg: Config, s: System, vs: set<ReplicaId>, b: Block) returns (s': System)
    requires ValidConfig(cfg) && Running(cfg, s) && vs <= cfg.faulty
    ensures Running(cfg, s') && s' == s.(ballots := s'.ballots) && s.ballots <= s'.ballots
    ensures vs <= Supporters(cfg, s'.ballots, b)
    decreases |vs|
  {
    if vs == {} {
      return s;
    }
    var v :| v in vs;
    var s1 := FaultyVotes(cfg, s, vs - {v}, b);
    s' := s1.(ballots := s1.ballots + {Ballot(v, b, Genesis)});
    Take(cfg, s1, FaultyVote(v, b), s');
    SupportersGrow(cfg, s1.ballots, s'.ballots, b);
    assert Ballot(v, b, Genesis) in s'.ballots;
  }

  /** All but one of the correct replicas. */
  function Voters(cfg: Config, idle: ReplicaId): (vs: set<ReplicaId>)
    ensures forall r: ReplicaId :: r in vs <==> r < cfg.n && r !in cfg.faulty && r != idle
  {
    Everyone(cfg.n) - cfg.faulty - {idle}
  }

  /** With at least one faulty replica, all but one of the replicas are a quorum. */
  lemma AllButOneCertify(cfg: Config, bs: set<Ballot>, idle: ReplicaId, b: Block)
    requires ValidConfig(cfg) && cfg.faulty != {} && Correct(cfg, idle)
    requires Voters(cfg, idle) + cfg.faulty <= Supporters(cfg, bs, b)
    ensures Certified(cfg, bs, b)
  {
    assert |cfg.faulty| > 0;
    assert Everyone(cfg.n) == Voters(cfg, idle) + cfg.faulty + {idle};
    SubsetSize(Voters(cfg, idle) + cfg.faulty, Supporters(cfg, bs, b));
  }

  /** The voters and the faulty replicas all vote for b: it is certified. */
  lemma Round(cfg: Config, s: System, idle: ReplicaId, b: Block) returns (s': System)
    requires ValidConfig(cfg) && cfg.faulty != {} && Correct(cfg, idle)
    requires Running(cfg, s) && b in s.injected && Certified(cfg, s.ballots, QcRef(b))
    requires forall r :: r in Voters(cfg, idle) ==> CanSee(cfg, s.reps[r].core, b)
    ensures Running(cfg, s') && s'.injected == s.injected && s.ballots <= s'.ballots
    ensures s'.reps[idle] == s.reps[idle]
    ensures forall r :: r in Voters(cfg, idle) ==> s'.reps[r].core == Seen(cfg, s.reps[r].core, b)
    ensures Certified(cfg, s'.ballots, b)
  {
    hide CanSee, Seen, Reachable;
    var s1 := SeeAll(cfg, s, Voters(cfg, idle), b);
    s' := FaultyVotes(cfg, s1, cfg.faulty, b);
    SupportersGrow(cfg, s1.ballots, s'.ballots, b);
    AllButOneCertify(cfg, s'.ballots, idle, b);
  }

  /** Several replicas fetch and deliver b. */
  lemma {:induction false} DeliverAll(cfg: Config, s: System, rs: set<ReplicaId>, b: Block) returns (s': System)
    requires Running(cfg, s) && b in s.injected && Certified(cfg, s.ballots, QcRef(b))
    requires rs <= Everyone(cfg.n) - cfg.faulty
    requires forall r: ReplicaId :: r in rs ==> Deliverable(s.reps[r].core, b)
    ensures Running(cfg, s') && OnlyMoved(cfg, s, s', rs) && s'.ballots == s.ballots
    ensures forall r: ReplicaId :: r in rs ==> s'.reps[r].core == FetchAndDeliver(s.reps[r].core, b)
    decreases |rs|
  {
    hide Deliverable, FetchAndDeliver, Reachable;
    if rs == {} {
      return s;
    }
    var r :| r in rs;
    var s1 := DeliverAll(cfg, s, rs - {r}, b);
    s' := DoDeliver(cfg, s1, r, b);
  }
}
