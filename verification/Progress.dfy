/** What correct replicas can do on their own: whoever can propose, with an hqc not below any lock, can get
    every correct replica to fetch its blocks, to vote for them and to commit them, whatever happened before
    and without the faulty ones. */
module Progress {
  import opened Chain
  import opened Core
  import opened CoreFacts
  import opened Quorums
  import opened Ballots
  import opened Protocol
  import opened Invariant
  import opened Safety
  import opened Votes
  import opened Citations
  import opened Runs
  import opened LeaderChain

  // ---- going on ----

  /** A step of a correct replica. */
  ghost predicate HonestStep(cfg: Config, s: System, s': System) {
    exists e :: Next(cfg, s, e, s') && !e.Inject? && !e.FaultyVote?
  }

  ghost predicate HonestPath(cfg: Config, path: seq<System>) {
    |path| > 0 && forall i :: 0 < i < |path| ==> HonestStep(cfg, path[i - 1], path[i])
  }

  /** Correct replicas alone can get from s to s'. */
  ghost predicate Leads(cfg: Config, s: System, s': System) {
    exists path :: HonestPath(cfg, path) && path[0] == s && path[|path| - 1] == s'
  }

  lemma LeadsNowhere(cfg: Config, s: System)
    ensures Leads(cfg, s, s)
  {
    assert HonestPath(cfg, [s]);
  }

  lemma LeadsOn(cfg: Config, a: System, b: System, c: System)
    requires Leads(cfg, a, b) && Leads(cfg, b, c)
    ensures Leads(cfg, a, c)
  {
    hide HonestStep;
    var p :| HonestPath(cfg, p) && p[0] == a && p[|p| - 1] == b;
    var q :| HonestPath(cfg, q) && q[0] == b && q[|q| - 1] == c;
    var all := p + q[1..];
    forall i | 0 < i < |all| ensures HonestStep(cfg, all[i - 1], all[i]) {
      if i < |p| {
        assert HonestStep(cfg, p[i - 1], p[i]);
      } else {
        var k := i - |p| + 1;
        assert HonestStep(cfg, q[k - 1], q[k]) && all[i] == q[k] && all[i - 1] == q[k - 1];
      }
    }
    assert HonestPath(cfg, all) && all[0] == a && all[|all| - 1] == c;
  }

  lemma OneStep(cfg: Config, s: System, e: Event, s': System)
    requires Next(cfg, s, e, s') && !e.Inject? && !e.FaultyVote?
    ensures Leads(cfg, s, s')
  {
    hide Next;
    assert HonestStep(cfg, s, s');
    assert HonestPath(cfg, [s, s']);
  }

  /** All that is known of states of runs in which no correct replica throws "safety breached". */
  ghost predicate Sound(cfg: Config, s: System) {
    && ValidConfig(cfg) && Inv(cfg, s) && CitesOk(cfg, s.ballots) && LockBelowHqc(cfg, s) && Tame(cfg, s.injected)
  }

  lemma StaysSound(cfg: Config, s: System, e: Event, s': System)
    requires Sound(cfg, s) && Next(cfg, s, e, s') && !e.Inject? && !e.FaultyVote?
    ensures Sound(cfg, s') && Grows(cfg, s, s') && s'.injected == s.injected && Leads(cfg, s, s')
  {
    hide Inv, CitesOk, LockBelowHqc, Tame, Grows;
    StepKeepsInv(cfg, s, e, s');
    StepKeepsCites(cfg, s, e, s');
    StepKeepsLock(cfg, s, e, s');
    OneStep(cfg, s, e, s');
    SameInjected(cfg, s, e, s');
  }

  lemma SameInjected(cfg: Config, s: System, e: Event, s': System)
    requires Next(cfg, s, e, s') && !e.Inject? && !e.FaultyVote?
    ensures s'.injected == s.injected
  {
  }

  /** What all steps here have in common. */
  ghost predicate GoesOn(cfg: Config, s: System, s': System) {
    Sound(cfg, s') && Grows(cfg, s, s') && s'.injected == s.injected && Leads(cfg, s, s')
  }

  lemma GoesOnTransitive(cfg: Config, a: System, b: System, c: System)
    requires GoesOn(cfg, a, b) && GoesOn(cfg, b, c)
    ensures GoesOn(cfg, a, c)
  {
    hide Sound, Grows, Leads;
    LeadsOn(cfg, a, b, c);
    GrowsTransitive(cfg, a, b, c);
  }

  lemma GoesNowhere(cfg: Config, s: System)
    requires Sound(cfg, s)
    ensures GoesOn(cfg, s, s)
  {
    hide LockBelowHqc, CitesOk;
    LeadsNowhere(cfg, s);
    StandGrows(cfg, s);
  }

  // ---- catching up ----

  /** The block and all under it have been made, and their certificates can exist. */
  ghost predicate Obtainable(cfg: Config, bs: set<Ballot>, made: set<Block>, b: Block) {
    b.Node? ==>
      && b in made && (QcRef(b).Genesis? || QcRef(b) in made) && Certified(cfg, bs, QcRef(b))
      && Obtainable(cfg, bs, made, b.parent)
      && forall i :: 0 <= i < |b.uncles| ==> Obtainable(cfg, bs, made, b.uncles[i])
  }

  function MadeIn(s: System): set<Block> {
    s.proposed + s.injected
  }

  lemma CertifiedIsMade(cfg: Config, s: System, b: Block)
    requires ValidConfig(cfg) && Inv(cfg, s) && Certified(cfg, s.ballots, b)
    ensures b.Genesis? || b in MadeIn(s)
  {
    if b.Node? {
      var v := QuorumsShareCorrect(cfg, Supporters(cfg, s.ballots, b), Supporters(cfg, s.ballots, b));
      var x :| x in s.ballots && x.blk == b && x.voter == v;
    }
  }

  /** What one correct replica has delivered, the others can get. */
  lemma {:induction false} DeliveredIsObtainable(cfg: Config, s: System, r: ReplicaId, b: Block)
    requires ValidConfig(cfg) && Inv(cfg, s) && Correct(cfg, r) && b in s.reps[r].core.delivered
    ensures Obtainable(cfg, s.ballots, MadeIn(s), b)
  {
    if b.Node? {
      assert ReplicaOk(cfg, s.ballots, r, s.reps[r]);
      CertifiedIsMade(cfg, s, QcRef(b));
      assert b.parent in Parents(b);
      DeliveredIsObtainable(cfg, s, r, b.parent);
      forall i | 0 <= i < |b.uncles| ensures Obtainable(cfg, s.ballots, MadeIn(s), b.uncles[i]) {
        assert b.uncles[i] in Parents(b);
        DeliveredIsObtainable(cfg, s, r, b.uncles[i]);
      }
    }
  }

  /** Only r has moved, and only to fetch and deliver more. */
  ghost predicate CaughtUp(cfg: Config, s: System, s': System, r: ReplicaId) {
    && |s.reps| == |s'.reps| == cfg.n && r < cfg.n
    && s' == s.(reps := s.reps[r := s'.reps[r]])
    && s'.reps[r].hqcTail == s.reps[r].hqcTail
    && var st, st' := s.reps[r].core, s'.reps[r].core;
       && st' == st.(fetched := st'.fetched, delivered := st'.delivered, tails := st'.tails)
       && st.delivered <= st'.delivered && st.fetched <= st'.fetched
  }

  lemma CaughtUpTransitive(cfg: Config, a: System, b: System, c: System, r: ReplicaId)
    requires CaughtUp(cfg, a, b, r) && CaughtUp(cfg, b, c, r)
    ensures CaughtUp(cfg, a, c, r)
  {
  }

  lemma FetchIt(cfg: Config, s: System, r: ReplicaId, b: Block) returns (s': System)
    requires Sound(cfg, s) && Correct(cfg, r) && (b.Genesis? || b in MadeIn(s))
    ensures GoesOn(cfg, s, s') && CaughtUp(cfg, s, s', r) && b in s'.reps[r].core.fetched
  {
    hide Sound, Grows;
    assert |s.reps| == cfg.n && Genesis in s.reps[r].core.fetched by {
      SoundFacts(cfg, s, r);
    }
    if b in s.reps[r].core.fetched {
      s' := s;
      GoesNowhere(cfg, s);
    } else {
      s' := WithCore(s, r, s.reps[r].core.(fetched := s.reps[r].core.fetched + {b}));
      StaysSound(cfg, s, Fetch(r, b), s');
    }
  }

  lemma SoundFacts(cfg: Config, s: System, r: ReplicaId)
    requires Sound(cfg, s) && Correct(cfg, r)
    ensures |s.reps| == cfg.n && ReplicaOk(cfg, s.ballots, r, s.reps[r]) && Genesis in s.reps[r].core.fetched
    ensures Shape(s.reps[r].core) && BallotsOk(cfg, s.ballots) && AllGrounded(cfg, s.ballots)
    ensures Height(s.reps[r].core.bLock) <= Height(s.reps[r].core.hqc)
  {
    assert ReplicaOk(cfg, s.ballots, r, s.reps[r]);
    TameIsGrounded(cfg, s);
  }

  lemma DeliverIt(cfg: Config, s: System, r: ReplicaId, b: Block) returns (s': System)
    requires Sound(cfg, s) && Correct(cfg, r) && |s.reps| == cfg.n && MayDeliver(cfg, s, s.reps[r].core, b)
    ensures GoesOn(cfg, s, s') && CaughtUp(cfg, s, s', r) && b in s'.reps[r].core.delivered
  {
    hide Sound, Grows;
    var st := s.reps[r].core;
    s' := WithCore(s, r, Deliver(st, b).state);
    DeliverEffect(st, b);
    assert Next(cfg, s, DeliverBlock(r, b), s');
    StaysSound(cfg, s, DeliverBlock(r, b), s');
  }

  lemma DeliverEffect(st: State, b: Block)
    requires (forall p :: p in Parents(b) ==> p in st.delivered) && QcRef(b) in st.fetched
    ensures var o := Deliver(st, b);
            && o.error == NoError && b in o.state.delivered && st.delivered <= o.state.delivered
            && st.fetched <= o.state.fetched
            && o.state == st.(fetched := o.state.fetched, delivered := o.state.delivered, tails := o.state.tails)
  {
  }

  /** A replica that lacks a block can fetch it and all under it, and deliver them. */
  lemma {:induction false} CatchUp(cfg: Config, s: System, r: ReplicaId, b: Block) returns (s': System)
    requires Sound(cfg, s) && Correct(cfg, r) && Obtainable(cfg, s.ballots, MadeIn(s), b)
    ensures GoesOn(cfg, s, s') && CaughtUp(cfg, s, s', r) && b in s'.reps[r].core.delivered
    decreases b, |Parents(b)| + 1
  {
    hide Sound, Grows, GoesOn, CaughtUp, Obtainable;
    SoundFacts(cfg, s, r);
    if b.Genesis? {
      s' := s;
      GoesNowhere(cfg, s);
      assert CaughtUp(cfg, s, s, r) by {
        StandsStill(cfg, s, r);
      }
    } else {
      s' := CatchUpParents(cfg, s, r, b, |Parents(b)|);
      s' := CatchUpLast(cfg, s, s', r, b);
    }
  }

  lemma StandsStill(cfg: Config, s: System, r: ReplicaId)
    requires |s.reps| == cfg.n && r < cfg.n
    ensures CaughtUp(cfg, s, s, r)
  {
  }

  lemma CatchUpLast(cfg: Config, s: System, s1: System, r: ReplicaId, b: Block) returns (s': System)
    requires Correct(cfg, r) && b.Node? && Obtainable(cfg, s.ballots, MadeIn(s), b)
    requires GoesOn(cfg, s, s1) && CaughtUp(cfg, s, s1, r)
    requires forall p :: p in Parents(b) ==> p in s1.reps[r].core.delivered
    ensures GoesOn(cfg, s, s') && CaughtUp(cfg, s, s', r) && b in s'.reps[r].core.delivered
  {
    hide Sound, Grows, Leads;
    var s2 := FetchIt(cfg, s1, r, QcRef(b));
    var s3 := FetchIt(cfg, s2, r, b);
    s' := DeliverIt(cfg, s3, r, b);
    GoesOnTransitive(cfg, s, s1, s2);
    GoesOnTransitive(cfg, s, s2, s3);
    GoesOnTransitive(cfg, s, s3, s');
  }

  lemma {:induction false} CatchUpParents(cfg: Config, s: System, r: ReplicaId, b: Block, k: nat) returns (s': System)
    requires Sound(cfg, s) && Correct(cfg, r) && b.Node? && k <= |Parents(b)|
    requires Obtainable(cfg, s.ballots, MadeIn(s), b)
    ensures GoesOn(cfg, s, s') && CaughtUp(cfg, s, s', r)
    ensures forall i :: 0 <= i < k ==> Parents(b)[i] in s'.reps[r].core.delivered
    decreases b, k
  {
    hide Sound, Grows, GoesOn, CaughtUp, Obtainable, ReplicaOk, Shape, BallotsOk, AllGrounded;
    SoundFacts(cfg, s, r);
    if k == 0 {
      s' := s;
      GoesNowhere(cfg, s);
      StandsStill(cfg, s, r);
    } else {
      var s1 := CatchUpParents(cfg, s, r, b, k - 1);
      var p := Parents(b)[k - 1];
      ParentToo(cfg, s.ballots, MadeIn(s), b, k - 1);
      SameAround(cfg, s, s1, r);
      s' := CatchUp(cfg, s1, r, p);
      GoesOnTransitive(cfg, s, s1, s');
      MoreDelivered(cfg, s1, s', r);
      CaughtUpTransitive(cfg, s, s1, s', r);
    }
  }

  lemma ParentToo(cfg: Config, bs: set<Ballot>, made: set<Block>, b: Block, k: nat)
    requires b.Node? && Obtainable(cfg, bs, made, b) && k < |Parents(b)|
    ensures Parents(b)[k] < b && Obtainable(cfg, bs, made, Parents(b)[k])
  {
    if k > 0 {
      assert Parents(b)[k] == b.uncles[k - 1];
    }
  }

  lemma SameAround(cfg: Config, s: System, s': System, r: ReplicaId)
    requires GoesOn(cfg, s, s') && CaughtUp(cfg, s, s', r)
    ensures s'.ballots == s.ballots && MadeIn(s') == MadeIn(s) && Sound(cfg, s')
  {
  }

  lemma MoreDelivered(cfg: Config, s: System, s': System, r: ReplicaId)
    requires CaughtUp(cfg, s, s', r)
    ensures |s.reps| == |s'.reps| == cfg.n && r < cfg.n && s.reps[r].core.delivered <= s'.reps[r].core.delivered
  {
  }

  // ---- voting ----

  /** Every block that b's certificates commit is decided. */
  ghost predicate Processed(build: Build, st: State, b: Block) {
    forall c :: CommitChain(build, c, QcRef(b)) ==> c in st.decided
  }

  /** r has voted for b, and its lock is not above what b cites. */
  ghost predicate Joined(cfg: Config, s: System, r: ReplicaId, b: Block) {
    && |s.reps| == cfg.n && r < cfg.n && r in Supporters(cfg, s.ballots, b)
    && var st := s.reps[r].core;
       st.vheight == Height(b) && Height(st.bLock) <= Height(QcRef(b)) && Processed(cfg.build, st, b)
  }

  /** b is high enough, and cites high enough, for r to vote for it. */
  ghost predicate Willing(st: State, b: Block) {
    AncestralQc(b) && Height(b) > st.vheight && Height(QcRef(b)) >= Height(st.bLock)
  }

  lemma VoteWorks(cfg: Config, bs: set<Ballot>, st: State, b: Block)
    requires ValidConfig(cfg) && BallotsOk(cfg, bs) && AllGrounded(cfg, bs) && CitesOk(cfg, bs)
    requires Shape(st) && Certs(cfg, bs, st) && b in st.delivered && Willing(st, b)
    ensures var o := ReceiveProposal(cfg.build, st, b);
            && o.error == NoError && o.state.vheight == Height(b) && Height(o.state.bLock) <= Height(QcRef(b))
            && Processed(cfg.build, o.state, b) && o.state.hqc == Update(cfg.build, st, b).state.hqc
  {
    hide BallotsOk, AllGrounded, CitesOk, Certs, Shape, Update, CommitChain;
    UpdateNeverBreaches(cfg, bs, st, b);
    LockBelowCited(cfg, bs, st, b);
    VoteIsExact(cfg.build, st, b);
    UpdateDecidesExactly(cfg.build, st, b);
    forall c | CommitChain(cfg.build, c, QcRef(b)) ensures c in Update(cfg.build, st, b).state.decided {
      assert Heads(cfg.build, st, c, b) && Extends(c, c);
    }
  }

  /** Only r has moved. */
  ghost predicate OnlyOne(cfg: Config, s: System, s': System, r: ReplicaId) {
    |s.reps| == |s'.reps| == cfg.n && r < cfg.n && s'.reps == s.reps[r := s'.reps[r]] && s.ballots <= s'.ballots
  }

  lemma VoteFor(cfg: Config, s: System, r: ReplicaId, b: Block) returns (s': System)
    requires Sound(cfg, s) && Correct(cfg, r) && |s.reps| == cfg.n
    requires b in s.reps[r].core.delivered && Willing(s.reps[r].core, b)
    ensures GoesOn(cfg, s, s') && OnlyOne(cfg, s, s', r) && Joined(cfg, s', r, b) && s'.proposed == s.proposed
  {
    hide Inv, CitesOk, LockBelowHqc, Tame, Grows, ReceiveProposal, Processed, Shape, Certs, AllGrounded, BallotsOk;
    SoundFacts(cfg, s, r);
    assert Certs(cfg, s.ballots, s.reps[r].core);
    VoteWorks(cfg, s.ballots, s.reps[r].core, b);
    s' := ReceiveIt(cfg, s, r, b);
    StaysSound(cfg, s, GetProposal(r, b, false), s');
  }

  lemma ReceiveIt(cfg: Config, s: System, r: ReplicaId, b: Block) returns (s': System)
    requires Correct(cfg, r) && |s.reps| == cfg.n
    requires var o := ReceiveProposal(cfg.build, s.reps[r].core, b);
             o.error == NoError && o.state.vheight != s.reps[r].core.vheight
    ensures Next(cfg, s, GetProposal(r, b, false), s') && OnlyOne(cfg, s, s', r) && s'.proposed == s.proposed
    ensures s'.reps[r].core == ReceiveProposal(cfg.build, s.reps[r].core, b).state
    ensures r in Supporters(cfg, s'.ballots, b)
  {
    hide ReceiveProposal, TailFollows;
    var rep := s.reps[r];
    var o := ReceiveProposal(cfg.build, rep.core, b);
    var tail := TailExists(rep.core, rep.hqcTail, o.state);
    var x := Ballot(r, b, o.state.bLock);
    s' := s.(reps := s.reps[r := Replica(o.state, tail)], ballots := s.ballots + {x});
    assert x in s'.ballots;
  }

  lemma {:induction false} ObtainableGrows(cfg: Config, bs: set<Ballot>, bs': set<Ballot>, made: set<Block>,
                                           made': set<Block>, b: Block)
    requires Obtainable(cfg, bs, made, b) && bs <= bs' && made <= made'
    ensures Obtainable(cfg, bs', made', b)
  {
    if b.Node? {
      CertifiedGrows(cfg, bs, bs', QcRef(b));
      ObtainableGrows(cfg, bs, bs', made, made', b.parent);
      forall i | 0 <= i < |b.uncles| ensures Obtainable(cfg, bs', made', b.uncles[i]) {
        ObtainableGrows(cfg, bs, bs', made, made', b.uncles[i]);
      }
    }
  }

  /** Only the replicas of rs have moved. */
  ghost predicate OnlyThese(cfg: Config, s: System, s': System, rs: set<ReplicaId>) {
    && |s.reps| == |s'.reps| == cfg.n && s.ballots <= s'.ballots && s'.proposed == s.proposed
    && s'.injected == s.injected
    && forall q: ReplicaId :: q < cfg.n && q !in rs ==> s'.reps[q] == s.reps[q]
  }

  lemma JoinedStays(cfg: Config, s: System, s': System, r: ReplicaId, b: Block)
    requires Joined(cfg, s, r, b) && |s'.reps| == cfg.n && s'.reps[r] == s.reps[r] && s.ballots <= s'.ballots
    ensures Joined(cfg, s', r, b)
  {
    hide Processed;
    SupportersGrow(cfg, s.ballots, s'.ballots, b);
  }

  /** The replicas of rs get the block and vote for it, one after the other. */
  lemma {:induction false} AllVote(cfg: Config, s: System, rs: set<ReplicaId>, b: Block) returns (s': System)
    requires Sound(cfg, s) && |s.reps| == cfg.n && Obtainable(cfg, s.ballots, MadeIn(s), b)
    requires forall r :: r in rs ==> Correct(cfg, r) && Willing(s.reps[r].core, b)
    ensures GoesOn(cfg, s, s') && OnlyThese(cfg, s, s', rs)
    ensures forall r :: r in rs ==> Joined(cfg, s', r, b)
    decreases |rs|
  {
    hide Sound, GoesOn, Joined, Willing, Obtainable;
    if rs == {} {
      s' := s;
      GoesNowhere(cfg, s);
      return;
    }
    var r :| r in rs;
    var s1 := AllVote(cfg, s, rs - {r}, b);
    s' := OneVotes(cfg, s, s1, r, b);
    forall q | q in rs - {r} ensures Joined(cfg, s', q, b) {
      JoinedStays(cfg, s1, s', q, b);
    }
  }

  lemma OneVotes(cfg: Config, s: System, s1: System, r: ReplicaId, b: Block) returns (s': System)
    requires |s.reps| == cfg.n && Correct(cfg, r) && Obtainable(cfg, s.ballots, MadeIn(s), b)
    requires GoesOn(cfg, s, s1) && |s1.reps| == cfg.n && s1.reps[r] == s.reps[r] && Willing(s.reps[r].core, b)
    requires s.ballots <= s1.ballots && s1.proposed == s.proposed && s1.injected == s.injected
    ensures GoesOn(cfg, s, s') && Joined(cfg, s', r, b) && s'.proposed == s.proposed && s'.injected == s.injected
    ensures |s'.reps| == cfg.n && s1.ballots <= s'.ballots
    ensures forall q: ReplicaId :: q < cfg.n && q != r ==> s'.reps[q] == s1.reps[q]
  {
    hide Joined, Obtainable, Grows, Leads, Inv, CitesOk;
    ObtainableGrows(cfg, s.ballots, s1.ballots, MadeIn(s), MadeIn(s1), b);
    var s2 := CatchUp(cfg, s1, r, b);
    GoesOnTransitive(cfg, s, s1, s2);
    s' := VoteFor(cfg, s2, r, b);
    GoesOnTransitive(cfg, s, s2, s');
  }

  // ---- proposing ----

  lemma ProposeWorks(cfg: Config, bs: set<Ballot>, st: State, tail: Block, cmds: seq<Command>, extra: nat)
    requires Able(cfg, bs, st, tail) && CitesOk(cfg, bs) && Height(st.bLock) <= Height(st.hqc)
    ensures var b, o := NewBlock(st, tail, cmds, extra), Propose(cfg.build, st, tail, cmds, extra);
            && o.error == NoError && o.state.hqc == st.hqc && o.state.voted == st.voted
            && o.state.delivered == st.delivered + {b} && Height(b) > Height(st.hqc)
            && o.state.vheight == Height(b) > st.vheight && Height(o.state.bLock) <= Height(QcRef(b))
            && Processed(cfg.build, o.state, b)
  {
    hide BallotsOk, AllGrounded, CitesOk, Update, Propose, FetchAndDeliver, Processed;
    var b := NewBlock(st, tail, cmds, extra);
    var st1 := FetchAndDeliver(st, b);
    ProposalSucceeds(cfg, bs, st, tail, cmds, extra);
    ProposeSplits(cfg.build, st, tail, cmds, extra);
    OwnDeliveredKeeps(cfg, bs, st, tail, cmds, extra);
    VoteWorks(cfg, bs, st1, b);
    UpdateKeepsShape(cfg.build, st1, b);
    SelfIsReceived(cfg.build, st1, b);
  }

  lemma SelfIsReceived(build: Build, st: State, b: Block)
    requires b in st.delivered && SelfReceive(Update(build, st, b), b).error == NoError
    ensures SelfReceive(Update(build, st, b), b) == ReceiveProposal(build, st, b)
  {
    hide Update;
  }

  /** The leader makes a block, votes for it, and will build on it next. */
  lemma LeaderProposes(cfg: Config, s: System, l: ReplicaId, cmds: seq<Command>, extra: nat) returns (s': System)
    requires Sound(cfg, s) && Correct(cfg, l) && |s.reps| == cfg.n
    requires s.reps[l].core.vheight <= Height(s.reps[l].hqcTail)
    ensures var rep := s.reps[l];
            var b := NewBlock(rep.core, rep.hqcTail, cmds, extra);
            && GoesOn(cfg, s, s') && OnlyOne(cfg, s, s', l) && s'.proposed == s.proposed + {b}
            && Joined(cfg, s', l, b) && s'.reps[l].hqcTail == b
            && s'.reps[l].core.hqc == rep.core.hqc && s'.reps[l].core.voted == rep.core.voted
            && s'.reps[l].core.delivered == rep.core.delivered + {b} && Height(b) > Height(rep.core.hqc)
            && AncestralQc(b)
  {
    hide Grows, Propose, Processed, TailFollows, Certs, OwnBallots, BallotsOk, AllGrounded, Tame;
    SoundFacts(cfg, s, l);
    var rep := s.reps[l];
    var b := NewBlock(rep.core, rep.hqcTail, cmds, extra);
    var o := Propose(cfg.build, rep.core, rep.hqcTail, cmds, extra);
    ProposeWorks(cfg, s.ballots, rep.core, rep.hqcTail, cmds, extra);
    var x := Ballot(l, b, o.state.bLock);
    s' := s.(reps := s.reps[l := Replica(o.state, b)], proposed := s.proposed + {b}, ballots := s.ballots + {x});
    assert Next(cfg, s, MakeProposal(l, cmds, extra, false), s');
    StaysSound(cfg, s, MakeProposal(l, cmds, extra, false), s');
    assert x in s'.ballots;
  }

  // ---- counting votes ----

  lemma VoteMovesUp(st: State, nmajority: nat, v: ReplicaId, b: Block)
    ensures var st' := ReceiveVote(st, nmajority, v, b).state;
            && st' == st.(hqc := st'.hqc, voted := st'.voted)
            && (st'.hqc != st.hqc ==> Height(st'.hqc) > Height(st.hqc))
  {
  }

  /** The tail chosen is still a highest one if hqc has moved since. */
  ghost predicate TailAfter(st: State, tail: Block, st': State, tail': Block) {
    Height(st.hqc) <= Height(st'.hqc) && (st'.hqc == st.hqc || Height(st'.hqc) > Height(st.hqc))
    && TailFollows(st, tail, st', tail')
  }

  lemma {:induction false} CountVotes(cfg: Config, s: System, l: ReplicaId, b: Block, voters: seq<ReplicaId>)
    returns (s': System)
    requires Sound(cfg, s) && Correct(cfg, l) && |s.reps| == cfg.n
    requires forall v :: v in voters ==> v in Supporters(cfg, s.ballots, b)
    ensures GoesOn(cfg, s, s') && OnlyOne(cfg, s, s', l) && s'.proposed == s.proposed && s'.ballots == s.ballots
    ensures s'.reps[l].core == AfterVotes(s.reps[l].core, Majority(cfg.n), b, voters)
    ensures TailAfter(s.reps[l].core, s.reps[l].hqcTail, s'.reps[l].core, s'.reps[l].hqcTail)
  {
    hide Sound, GoesOn, Supporters, ReceiveVote, HighestTail;
    if voters == [] {
      s' := s;
      GoesNowhere(cfg, s);
    } else {
      var n := |voters| - 1;
      var s1 := CountVotes(cfg, s, l, b, voters[..n]);
      s' := CountOne(cfg, s, s1, l, b, voters[n]);
    }
  }

  lemma CountOne(cfg: Config, s: System, s1: System, l: ReplicaId, b: Block, v: ReplicaId) returns (s': System)
    requires GoesOn(cfg, s, s1) && Correct(cfg, l) && OnlyOne(cfg, s, s1, l) && s1.ballots == s.ballots
    requires v in Supporters(cfg, s.ballots, b) && s1.proposed == s.proposed
    requires TailAfter(s.reps[l].core, s.reps[l].hqcTail, s1.reps[l].core, s1.reps[l].hqcTail)
    ensures GoesOn(cfg, s, s') && OnlyOne(cfg, s, s', l) && s'.proposed == s.proposed && s'.ballots == s.ballots
    ensures s'.reps[l].core == ReceiveVote(s1.reps[l].core, Majority(cfg.n), v, b).state
    ensures TailAfter(s.reps[l].core, s.reps[l].hqcTail, s'.reps[l].core, s'.reps[l].hqcTail)
  {
    hide Grows, Inv, CitesOk, LockBelowHqc, Tame, Leads, Supporters, ReceiveVote;
    var rep := s1.reps[l];
    var st := ReceiveVote(rep.core, Majority(cfg.n), v, b).state;
    VoteMovesUp(rep.core, Majority(cfg.n), v, b);
    var tail := TailExists(rep.core, rep.hqcTail, st);
    s' := s1.(reps := s1.reps[l := Replica(st, tail)]);
    assert Next(cfg, s1, GetVote(l, v, b), s');
    StaysSound(cfg, s1, GetVote(l, v, b), s');
    GoesOnTransitive(cfg, s, s1, s');
  }

  // ---- a round ----

  /** The leader can propose, high enough and with a certificate high enough for everybody to vote. */
  ghost predicate Leading(cfg: Config, s: System, l: ReplicaId) {
    && Sound(cfg, s) && Correct(cfg, l) && |s.reps| == cfg.n && CompletedKnown(s.reps[l].core, Majority(cfg.n))
    && s.reps[l].core.vheight <= Height(s.reps[l].hqcTail)
    && forall r: ReplicaId :: Correct(cfg, r) ==>
         && s.reps[r].core.vheight <= Height(s.reps[l].hqcTail)
         && Height(s.reps[r].core.bLock) <= Height(s.reps[l].core.hqc)
  }

  function Others(cfg: Config, l: ReplicaId): (rs: set<ReplicaId>)
    ensures forall r: ReplicaId :: r in rs <==> r < cfg.n && r !in cfg.faulty && r != l
  {
    Everyone(cfg.n) - cfg.faulty - {l}
  }

  lemma AllCorrect(cfg: Config, l: ReplicaId) returns (voters: seq<ReplicaId>)
    requires ValidConfig(cfg) && Correct(cfg, l)
    ensures Distinct(voters) == Others(cfg, l) + {l} && |Distinct(voters)| >= Majority(cfg.n) > 0
  {
    voters := InSomeOrder(Others(cfg, l) + {l});
    assert Others(cfg, l) + {l} == Everyone(cfg.n) - cfg.faulty;
    assert |Everyone(cfg.n) - cfg.faulty| == cfg.n - |cfg.faulty|;
  }

  /** A number that no block made so far carries. */
  lemma UnusedExtra(made: set<Block>) returns (extra: nat)
    ensures forall b :: b in made && b.Node? ==> b.extra < extra
  {
    extra := 0;
    var rest := made;
    while rest != {}
      invariant rest <= made && forall b :: b in made - rest && b.Node? ==> b.extra < extra
      decreases rest
    {
      var b :| b in rest;
      rest := rest - {b};
      if b.Node? && b.extra >= extra {
        extra := b.extra + 1;
      }
    }
  }

  /** The block the leader makes next. */
  function NextBlock(s: System, l: ReplicaId, cmds: seq<Command>, extra: nat): Block
    requires l < |s.reps|
  {
    NewBlock(s.reps[l].core, s.reps[l].hqcTail, cmds, extra)
  }

  /** Everybody correct has processed b, and the leader has its certificate and builds on it. */
  ghost predicate Closed(cfg: Config, s: System, l: ReplicaId, b: Block) {
    && Leading(cfg, s, l) && s.reps[l].core.hqc == s.reps[l].hqcTail == b
    && forall r: ReplicaId :: Correct(cfg, r) ==> Processed(cfg.build, s.reps[r].core, b)
  }

  /** The leader proposes, everybody correct votes, and the leader gets the certificate. */
  lemma RoundOnce(cfg: Config, s: System, l: ReplicaId, cmds: seq<Command>, extra: nat) returns (s': System)
    requires Leading(cfg, s, l) && NextBlock(s, l, cmds, extra) !in MadeIn(s)
    ensures GoesOn(cfg, s, s') && Closed(cfg, s', l, NextBlock(s, l, cmds, extra))
  {
    hide Inv, CitesOk, LockBelowHqc, Tame, Grows, Leads, Joined, Processed, CompletedKnown, Obtainable, Supporters;
    var b := NextBlock(s, l, cmds, extra);
    var s1 := LeaderProposes(cfg, s, l, cmds, extra);
    var s2 := OthersVote(cfg, s, s1, l, b);
    JoinedStays(cfg, s1, s2, l, b);
    GoesOnTransitive(cfg, s, s1, s2);
    var voters := CorrectVoters(cfg, s2, l, b);
    var s3 := CountVotes(cfg, s2, l, b, voters);
    GoesOnTransitive(cfg, s, s2, s3);
    NotYetDelivered(cfg, s, l, b);
    LeaderCertified(cfg, s, s2, s3, l, b, voters);
    s' := s3;
    RoundClosed(cfg, s2, s3, l, b);
  }

  lemma OthersVote(cfg: Config, s: System, s1: System, l: ReplicaId, b: Block) returns (s2: System)
    requires Leading(cfg, s, l) && OnlyOne(cfg, s, s1, l) && Sound(cfg, s1)
    requires b in s1.reps[l].core.delivered && AncestralQc(b) && QcRef(b) == s.reps[l].core.hqc
    requires Height(b) == Height(s.reps[l].hqcTail) + 1
    ensures GoesOn(cfg, s1, s2) && OnlyThese(cfg, s1, s2, Others(cfg, l))
    ensures forall r :: r in Others(cfg, l) ==> Joined(cfg, s2, r, b)
  {
    hide GoesOn, Joined, CitesOk, LockBelowHqc, Tame, Obtainable, CompletedKnown;
    DeliveredIsObtainable(cfg, s1, l, b);
    s2 := AllVote(cfg, s1, Others(cfg, l), b);
  }

  lemma CorrectVoters(cfg: Config, s: System, l: ReplicaId, b: Block) returns (voters: seq<ReplicaId>)
    requires ValidConfig(cfg) && Correct(cfg, l) && Joined(cfg, s, l, b)
    requires forall r :: r in Others(cfg, l) ==> Joined(cfg, s, r, b)
    ensures |Distinct(voters)| >= Majority(cfg.n) > 0
    ensures forall v :: v in voters ==> v in Supporters(cfg, s.ballots, b)
  {
    hide Supporters, Processed;
    voters := AllCorrect(cfg, l);
    forall v | v in voters ensures v in Supporters(cfg, s.ballots, b) {
      assert v in Distinct(voters);
    }
  }

  lemma NotYetDelivered(cfg: Config, s: System, l: ReplicaId, b: Block)
    requires Sound(cfg, s) && Correct(cfg, l) && b.Node? && b !in MadeIn(s)
    ensures |s.reps| == cfg.n && b !in s.reps[l].core.delivered && Shape(s.reps[l].core)
  {
    SoundFacts(cfg, s, l);
  }

  lemma LeaderCertified(cfg: Config, s: System, s2: System, s3: System, l: ReplicaId, b: Block, voters: seq<ReplicaId>)
    requires Correct(cfg, l) && |s.reps| == |s2.reps| == |s3.reps| == cfg.n && Sound(cfg, s3)
    requires Shape(s.reps[l].core) && b !in s.reps[l].core.delivered && CompletedKnown(s.reps[l].core, Majority(cfg.n))
    requires var st, st2 := s.reps[l].core, s2.reps[l].core;
             && st2.hqc == st.hqc && st2.voted == st.voted && st2.delivered == st.delivered + {b}
             && Height(b) > Height(st.hqc)
    requires |Distinct(voters)| >= Majority(cfg.n) > 0
    requires s3.reps[l].core == AfterVotes(s2.reps[l].core, Majority(cfg.n), b, voters)
    requires TailAfter(s2.reps[l].core, s2.reps[l].hqcTail, s3.reps[l].core, s3.reps[l].hqcTail)
    ensures var st2, st3 := s2.reps[l].core, s3.reps[l].core;
            && st3.hqc == s3.reps[l].hqcTail == b && CompletedKnown(st3, Majority(cfg.n))
            && st3 == st2.(hqc := b, voted := st3.voted)
  {
    hide AfterVotes;
    var st, st2, st3 := s.reps[l].core, s2.reps[l].core, s3.reps[l].core;
    VotesCertify(st2, Majority(cfg.n), b, voters);
    SoundFacts(cfg, s3, l);
    hide CompletedKnown, CitesOk, BallotsOk, Certs;
    NewTail(st, b, b);
    NewHqcIsTail(st3, b, s3.reps[l].hqcTail);
  }

  lemma RoundClosed(cfg: Config, s2: System, s3: System, l: ReplicaId, b: Block)
    requires Sound(cfg, s3) && Correct(cfg, l) && b.Node? && Height(QcRef(b)) < Height(b)
    requires |s2.reps| == |s3.reps| == cfg.n && OnlyOne(cfg, s2, s3, l)
    requires Joined(cfg, s2, l, b) && forall r :: r in Others(cfg, l) ==> Joined(cfg, s2, r, b)
    requires var st2, st3 := s2.reps[l].core, s3.reps[l].core;
             && st3.hqc == s3.reps[l].hqcTail == b && CompletedKnown(st3, Majority(cfg.n))
             && st3 == st2.(hqc := b, voted := st3.voted)
    ensures Closed(cfg, s3, l, b)
  {
    hide Sound, CompletedKnown, CommitChain;
    forall r: ReplicaId | Correct(cfg, r)
      ensures s3.reps[r].core.vheight <= Height(b) && Height(s3.reps[r].core.bLock) <= Height(b)
      ensures Processed(cfg.build, s3.reps[r].core, b)
    {
      assert Joined(cfg, s2, r, b);
    }
  }

  // ---- committing ----

  lemma FreshRound(cfg: Config, s: System, l: ReplicaId, cmds: seq<Command>) returns (s': System, b: Block)
    requires Leading(cfg, s, l)
    ensures GoesOn(cfg, s, s') && Closed(cfg, s', l, b)
    ensures b.Node? && b.parent == s.reps[l].hqcTail && b.qcBlock == s.reps[l].core.hqc && b.cmds == cmds
    ensures b !in MadeIn(s)
  {
    hide Leading, GoesOn, Closed;
    assert Correct(cfg, l) && |s.reps| == cfg.n by {
      LeadingFacts(cfg, s, l);
    }
    var extra := UnusedExtra(MadeIn(s));
    b := NextBlock(s, l, cmds, extra);
    s' := RoundOnce(cfg, s, l, cmds, extra);
  }

  lemma LeadingFacts(cfg: Config, s: System, l: ReplicaId)
    requires Leading(cfg, s, l)
    ensures Correct(cfg, l) && |s.reps| == cfg.n
  {
  }

  lemma ClosedFacts(cfg: Config, s: System, l: ReplicaId, b: Block)
    requires Closed(cfg, s, l, b)
    ensures Leading(cfg, s, l) && |s.reps| == cfg.n && Correct(cfg, l) && s.reps[l].core.hqc == s.reps[l].hqcTail == b
    ensures forall r: ReplicaId, c :: Correct(cfg, r) && CommitChain(cfg.build, c, QcRef(b)) ==>
              c in s.reps[r].core.decided
  {
    hide Leading, CommitChain;
    LeadingFacts(cfg, s, l);
    assert forall r: ReplicaId :: Correct(cfg, r) ==> Processed(cfg.build, s.reps[r].core, b);
  }

  /** Two or three more rounds, and b is committed by everybody correct. */
  lemma RoundsCommit(cfg: Config, s: System, l: ReplicaId, b: Block) returns (s': System)
    requires Closed(cfg, s, l, b) && b.Node?
    ensures GoesOn(cfg, s, s') && |s'.reps| == cfg.n
    ensures forall r: ReplicaId :: Correct(cfg, r) ==> b in s'.reps[r].core.decided
  {
    hide Leading, GoesOn, Closed;
    ClosedFacts(cfg, s, l, b);
    var s1, b1 := FreshRound(cfg, s, l, []);
    ClosedFacts(cfg, s1, l, b1);
    var s2, b2 := FreshRound(cfg, s1, l, []);
    ClosedFacts(cfg, s2, l, b2);
    GoesOnTransitive(cfg, s, s1, s2);
    match cfg.build
    case TwoStep =>
      s' := s2;
      assert CommitChain(cfg.build, b, QcRef(b2));
    case ThreeStep =>
      var s3, b3 := FreshRound(cfg, s2, l, []);
      ClosedFacts(cfg, s3, l, b3);
      GoesOnTransitive(cfg, s, s2, s3);
      s' := s3;
      assert CommitChain(cfg.build, b, QcRef(b3));
  }

  // ---- getting high enough ----

  /** The leader builds on its own blocks until they are as high as h. */
  lemma {:induction false} Raise(cfg: Config, s: System, l: ReplicaId, h: nat) returns (s': System)
    requires Sound(cfg, s) && Correct(cfg, l) && |s.reps| == cfg.n && CompletedKnown(s.reps[l].core, Majority(cfg.n))
    requires s.reps[l].core.vheight <= Height(s.reps[l].hqcTail)
    ensures GoesOn(cfg, s, s') && |s'.reps| == cfg.n && CompletedKnown(s'.reps[l].core, Majority(cfg.n))
    ensures s'.reps[l].core.vheight <= Height(s'.reps[l].hqcTail) && h <= Height(s'.reps[l].hqcTail)
    ensures s'.reps[l].core.hqc == s.reps[l].core.hqc && MadeIn(s) <= MadeIn(s')
    ensures forall r: ReplicaId :: r < cfg.n && r != l ==> s'.reps[r] == s.reps[r]
    decreases if h <= Height(s.reps[l].hqcTail) then 0 else h - Height(s.reps[l].hqcTail)
  {
    hide Sound, GoesOn, Processed;
    if h <= Height(s.reps[l].hqcTail) {
      s' := s;
      GoesNowhere(cfg, s);
    } else {
      var s1 := LeaderProposes(cfg, s, l, [], 0);
      assert Sound(cfg, s1) by {
        GoesOnIsSound(cfg, s, s1);
      }
      SameCompleted(s.reps[l].core, s1.reps[l].core, Majority(cfg.n));
      assert MadeIn(s) <= MadeIn(s1) by {
        GoesOnIsSound(cfg, s, s1);
      }
      s' := Raise(cfg, s1, l, h);
      GoesOnTransitive(cfg, s, s1, s');
    }
  }

  lemma GoesOnIsSound(cfg: Config, s: System, s': System)
    requires GoesOn(cfg, s, s')
    ensures Sound(cfg, s') && s'.injected == s.injected
  {
  }

  lemma SameCompleted(st: State, st': State, nmajority: nat)
    requires CompletedKnown(st, nmajority) && st'.voted == st.voted && Height(st.hqc) <= Height(st'.hqc)
    ensures CompletedKnown(st', nmajority)
  {
  }

  function MaxVheight(reps: seq<Replica>): (h: nat)
    ensures forall r :: 0 <= r < |reps| ==> reps[r].core.vheight <= h
  {
    if reps == [] then 0
    else
      var n := |reps| - 1;
      var h := MaxVheight(reps[..n]);
      if reps[n].core.vheight > h then reps[n].core.vheight else h
  }

  // ---- in every run ----

  /** Every certificate that a correct replica's votes make up has been compared with its hqc. */
  lemma {:induction false} RunCompleted(cfg: Config, run: seq<System>, i: nat, r: ReplicaId)
    requires ValidConfig(cfg) && IsRun(cfg, run) && i < |run| && Correct(cfg, r)
    ensures |run[i].reps| == cfg.n && CompletedKnown(run[i].reps[r].core, Majority(cfg.n))
  {
    hide CompletedKnown, Inv, Next;
    if i == 0 {
      InitCompleted(cfg);
    } else {
      RunCompleted(cfg, run, i - 1, r);
      RunInv(cfg, run, i - 1);
      RunInv(cfg, run, i);
      assert |run[i].reps| == cfg.n by {
        SizeOf(cfg, run[i]);
      }
      assert CanStep(cfg, run[i - 1], run[i]);
      var e :| Next(cfg, run[i - 1], e, run[i]);
      StepCompleted(cfg, run[i - 1], e, run[i], r);
    }
  }

  lemma SizeOf(cfg: Config, s: System)
    requires Inv(cfg, s)
    ensures |s.reps| == cfg.n
  {
  }

  lemma InitCompleted(cfg: Config)
    requires cfg.n > 0
    ensures CompletedKnown(InitState(cfg.n), Majority(cfg.n))
  {
  }

  lemma StepCompleted(cfg: Config, s: System, e: Event, s': System, r: ReplicaId)
    requires ValidConfig(cfg) && Inv(cfg, s) && Next(cfg, s, e, s') && Correct(cfg, r)
    requires CompletedKnown(s.reps[r].core, Majority(cfg.n))
    ensures CompletedKnown(s'.reps[r].core, Majority(cfg.n))
  {
    hide Certs, OwnBallots, BallotsOk, TailFollows, ReceiveProposal, Propose, Deliver, ReceiveVote, CompletedKnown;
    var st := s.reps[r].core;
    match e
    case Inject(b) =>
    case FaultyVote(v, b) =>
    case Fetch(q, b) => SameCompleted(st, s'.reps[r].core, Majority(cfg.n));
    case DeliverBlock(q, b) =>
      DeliverKeepsShape(st, b);
      SameCompleted(st, s'.reps[r].core, Majority(cfg.n));
    case GetProposal(q, b, mute) =>
      ReceiveCompletes(cfg, st, b);
    case ShowProposal(q, b) =>
    case MakeProposal(q, cmds, extra, mute) =>
      ProposeCompletes(cfg, st, s.reps[r].hqcTail, cmds, extra);
    case GetVote(q, v, b) => VoteCompletes(st, Majority(cfg.n), v, b);
  }

  lemma ReceiveCompletes(cfg: Config, st: State, b: Block)
    requires Shape(st) && CompletedKnown(st, Majority(cfg.n))
    ensures CompletedKnown(ReceiveProposal(cfg.build, st, b).state, Majority(cfg.n))
  {
    hide Update, CompletedKnown;
    UpdateKeepsShape(cfg.build, st, b);
    SameCompleted(st, ReceiveProposal(cfg.build, st, b).state, Majority(cfg.n));
  }

  lemma ProposeCompletes(cfg: Config, st: State, tail: Block, cmds: seq<Command>, extra: nat)
    requires Shape(st) && TailsExact(st) && tail in st.delivered && CompletedKnown(st, Majority(cfg.n))
    ensures CompletedKnown(Propose(cfg.build, st, tail, cmds, extra).state, Majority(cfg.n))
  {
    hide Update, Propose, CompletedKnown;
    var b := NewBlock(st, tail, cmds, extra);
    ProposeSplits(cfg.build, st, tail, cmds, extra);
    DeliverKeepsShape(st.(fetched := st.fetched + {b}), b);
    UpdateKeepsShape(cfg.build, FetchAndDeliver(st, b), b);
    SameCompleted(st, Propose(cfg.build, st, tail, cmds, extra).state, Majority(cfg.n));
  }

  lemma VoteCompletes(st: State, nmajority: nat, v: ReplicaId, b: Block)
    requires CompletedKnown(st, nmajority)
    ensures CompletedKnown(ReceiveVote(st, nmajority, v, b).state, nmajority)
  {
    if b in st.delivered {
      OneVote(st, nmajority, b, v);
      var st' := ReceiveVote(st, nmajority, v, b).state;
      forall c | c in st'.voted && |st'.voted[c]| >= nmajority ensures Height(c) <= Height(st'.hqc) {
        assert c != b ==> VotedFor(st', c) == VotedFor(st, c);
      }
    }
  }

  lemma RunSound(cfg: Config, run: seq<System>, i: nat)
    requires ValidConfig(cfg) && IsRun(cfg, run) && i < |run| && Tame(cfg, run[i].injected)
    ensures Sound(cfg, run[i])
  {
    hide Inv, CitesOk, LockBelowHqc;
    RunInv(cfg, run, i);
    RunCites(cfg, run, i);
    RunLock(cfg, run, i);
  }

  lemma RunGoesOn(cfg: Config, run: seq<System>, s': System) returns (run': seq<System>)
    requires IsRun(cfg, run) && Leads(cfg, run[|run| - 1], s')
    ensures IsRun(cfg, run') && run <= run' && run'[|run'| - 1] == s' && HonestPath(cfg, run'[|run| - 1..])
  {
    hide HonestStep, CanStep;
    var path :| HonestPath(cfg, path) && path[0] == run[|run| - 1] && path[|path| - 1] == s';
    run' := run + path[1..];
    var m := |run| - 1;
    assert run'[m..] == path;
    forall i | 0 < i < |run'| ensures CanStep(cfg, run'[i - 1], run'[i]) {
      if i <= m {
        assert CanStep(cfg, run[i - 1], run[i]);
      } else {
        assert HonestStep(cfg, path[i - m - 1], path[i - m]);
        HonestCan(cfg, path[i - m - 1], path[i - m]);
      }
    }
  }

  lemma HonestCan(cfg: Config, s: System, s': System)
    requires HonestStep(cfg, s, s')
    ensures CanStep(cfg, s, s')
  {
  }

  /** In a state of a run, l can propose and holds a certificate not below anybody's lock. */
  ghost predicate CanLead(cfg: Config, s: System, l: ReplicaId) {
    && Correct(cfg, l) && |s.reps| == cfg.n && s.reps[l].core.vheight <= Height(s.reps[l].hqcTail)
    && forall r: ReplicaId :: Correct(cfg, r) ==> Height(s.reps[r].core.bLock) <= Height(s.reps[l].core.hqc)
  }

  /** Of these two, the first is exactly that its next call of on_propose does not throw. */
  lemma ProposesExactly(cfg: Config, run: seq<System>, i: nat, r: ReplicaId, cmds: seq<Command>, extra: nat)
    requires ValidConfig(cfg) && IsRun(cfg, run) && i < |run| && Tame(cfg, run[i].injected) && Correct(cfg, r)
    ensures |run[i].reps| == cfg.n
    ensures var rep := run[i].reps[r];
            Propose(cfg.build, rep.core, rep.hqcTail, cmds, extra).error
            == if rep.core.vheight <= Height(rep.hqcTail) then NoError else NotHigherThanVheight
  {
    hide IsRun, Propose, FetchAndDeliver, Update, CitesOk;
    RunSound(cfg, run, i);
    SoundFacts(cfg, run[i], r);
    var rep := run[i].reps[r];
    var b := NewBlock(rep.core, rep.hqcTail, cmds, extra);
    var st1 := FetchAndDeliver(rep.core, b);
    OwnDeliveredKeeps(cfg, run[i].ballots, rep.core, rep.hqcTail, cmds, extra);
    ProposeSplits(cfg.build, rep.core, rep.hqcTail, cmds, extra);
    UpdateNeverBreaches(cfg, run[i].ballots, st1, b);
    UpdateKeepsShape(cfg.build, st1, b);
  }

  /** There always is a correct replica with such a certificate, one with the highest hqc. */
  lemma SomebodyIsHighest(cfg: Config, run: seq<System>, i: nat) returns (l: ReplicaId)
    requires ValidConfig(cfg) && IsRun(cfg, run) && i < |run|
    ensures |run[i].reps| == cfg.n && Correct(cfg, l)
    ensures forall r: ReplicaId :: Correct(cfg, r) ==>
              Height(run[i].reps[r].core.bLock) <= Height(run[i].reps[l].core.hqc)
  {
    hide CanStep;
    RunInv(cfg, run, i);
    var correct := Everyone(cfg.n) - cfg.faulty;
    assert |correct| == cfg.n - |cfg.faulty|;
    l :| l in correct;
    var rest := correct;
    while rest != {}
      invariant rest <= correct && l in correct
      invariant forall r: ReplicaId :: r in correct - rest ==>
                  Height(run[i].reps[r].core.hqc) <= Height(run[i].reps[l].core.hqc)
      decreases rest
    {
      var r :| r in rest;
      rest := rest - {r};
      if Height(run[i].reps[r].core.hqc) > Height(run[i].reps[l].core.hqc) {
        l := r;
      }
    }
    forall r: ReplicaId | Correct(cfg, r)
      ensures Height(run[i].reps[r].core.bLock) <= Height(run[i].reps[l].core.hqc)
    {
      ExecLockHqc(cfg, run, i, r);
      assert r in correct;
    }
  }

  /** Then every run can go on, by steps of correct replicas only, to a state in which all of them have
      committed a new block with any given commands: whatever they had voted for, on whatever branches they
      are locked, and however faulty replicas have behaved before. */
  lemma CorrectReplicasCanCommit(cfg: Config, run: seq<System>, l: ReplicaId, cmds: seq<Command>)
    returns (run': seq<System>, b: Block)
    requires ValidConfig(cfg) && IsRun(cfg, run)
    requires Tame(cfg, run[|run| - 1].injected) && CanLead(cfg, run[|run| - 1], l)
    ensures IsRun(cfg, run') && run <= run' && HonestPath(cfg, run'[|run| - 1..])
    ensures b.Node? && b.cmds == cmds && b !in MadeIn(run[|run| - 1]) && |run'[|run'| - 1].reps| == cfg.n
    ensures forall r: ReplicaId :: Correct(cfg, r) ==> b in run'[|run'| - 1].reps[r].core.log
  {
    hide Sound, Tame, GoesOn, CanStep, Leading, Closed, CompletedKnown, Leads, HonestPath;
    var s := run[|run| - 1];
    RunSound(cfg, run, |run| - 1);
    RunCompleted(cfg, run, |run| - 1, l);
    var s1 := Raise(cfg, s, l, MaxVheight(s.reps));
    assert Leading(cfg, s1, l) by {
      Raised(cfg, s, s1, l);
    }
    var s2, b' := FreshRound(cfg, s1, l, cmds);
    b := b';
    var s3 := RoundsCommit(cfg, s2, l, b);
    GoesOnTransitive(cfg, s, s1, s2);
    GoesOnTransitive(cfg, s, s2, s3);
    assert Leads(cfg, s, s3) by {
      GoesOnLeads(cfg, s, s3);
    }
    run' := RunGoesOn(cfg, run, s3);
    forall r: ReplicaId | Correct(cfg, r) ensures b in s3.reps[r].core.log {
      InLog(cfg, s, s3, r, b);
    }
  }

  lemma GoesOnLeads(cfg: Config, s: System, s': System)
    requires GoesOn(cfg, s, s')
    ensures Leads(cfg, s, s')
  {
  }

  lemma Raised(cfg: Config, s: System, s1: System, l: ReplicaId)
    requires CanLead(cfg, s, l) && GoesOn(cfg, s, s1) && |s1.reps| == cfg.n
    requires CompletedKnown(s1.reps[l].core, Majority(cfg.n)) && s1.reps[l].core.hqc == s.reps[l].core.hqc
    requires s1.reps[l].core.vheight <= Height(s1.reps[l].hqcTail) && MaxVheight(s.reps) <= Height(s1.reps[l].hqcTail)
    requires forall r: ReplicaId :: r < cfg.n && r != l ==> s1.reps[r] == s.reps[r]
    ensures Leading(cfg, s1, l)
  {
    hide CompletedKnown, Grows, Leads;
    SoundFacts(cfg, s1, l);
  }

  lemma InLog(cfg: Config, s: System, s': System, r: ReplicaId, b: Block)
    requires GoesOn(cfg, s, s') && Correct(cfg, r) && |s'.reps| == cfg.n && b in s'.reps[r].core.decided && b.Node?
    ensures b in s'.reps[r].core.log
  {
    SoundFacts(cfg, s', r);
    BranchMembers(s'.reps[r].core.bExec, b);
  }
}
