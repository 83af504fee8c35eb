/** PMRoundRobinProposer, event by event: which batches are proposed, and which are forgotten. */
module RoundRobinLosses {
  import opened Core
  import opened RoundRobin
  import LeaderChain

  // ---- what each event forgets ----

  /** The step of do_new_consensus that waits in one of two callbacks. */
  function ChainOf(cbs: seq<Callback>): Option<nat> {
    if |cbs| > 0 && cbs[0].ChainCb? then Some(cbs[0].x)
    else if |cbs| > 1 && cbs[1].ChainCb? then Some(cbs[1].x) else None
  }

  /** The certificate of b makes do_new_consensus go on. */
  predicate GoesOn(env: Env, ps: Promises, b: Blk) {
    && ps.manual == Some(b) && b in ps.qcs && ps.qcs[b].Waiting?
    && ChainOf(ps.qcs[b].cbs).Some? && ChainOf(ps.qcs[b].cbs).value < LeaderChain.Lag(env.build)
  }

  /** What a block proposed by do_new_consensus makes the pacemaker forget: the held batch, if another
      one is queued or if the re-proposal before waited for the same certificate. */
  function LostByChain(s: Pacer): multiset<Batch> {
    if s.pending != [] || s.pms.manual == s.pms.finish then Bag(Held(s.pms)) else multiset{}
  }

  function LostByQc(env: Env, s: Pacer, b: Blk): multiset<Batch> {
    if s.pms.finish == Some(b) && s.proposer != env.id then Bag(Held(s.pms))
    else if !GoesOn(env, s.pms, b) then multiset{}
    else if s.pms.finish == Some(b) then if |s.pending| >= 2 then multiset{s.pending[0]} else multiset{}
    else if s.pending != [] then Bag(Held(s.pms)) else multiset{}
  }

  /** The batches that are forgotten in an event. */
  function Lost(env: Env, s: Pacer, e: Event): multiset<Batch> {
    match e
    case Take(batch) => if s.proposer == env.id && !s.locked then Bag(Held(s.pms)) else multiset{}
    case Finish(b, byVotes) => if Known(s.own, b) then LostByQc(env, s, b) else multiset{}
    case Consensus(b) => multiset{}
    case Receive(who, b) => multiset{}
    case Impeach => Bag(Held(s.pms))
    case ExpTimeout => if s.proposer == env.id then LostByChain(s) else multiset{}
    case PropTimeout => Bag(Held(s.pms))
    case RunCall(waiting) => if s.calls > 0 && waiting then LostByChain(s) else multiset{}
  }

  lemma NoneHeldInRotation(s: Pacer, hand: multiset<Batch>)
    requires Good(s, hand) && s.rotating
    ensures Held(s.pms).None? && s.pms.finish.None?
  {
  }

  lemma OnConsensusLoses(env: Env, s: Pacer, b: Blk, hand: multiset<Batch>)
    requires Good(s, hand)
    ensures var s' := OnConsensus(env, s, b);
            && s'.pms.dropped == s.pms.dropped && s'.pending == s.pending && s'.proposer == s.proposer
            && (s.rotating ==> s'.pms.finish.None?) && (!s.rotating ==> s'.pms == s.pms && !s'.rotating)
  {
    hide Wired, Names, Accounted, RejectBoth;
    if s.rotating {
      NoneHeldInRotation(s, hand);
      RejectBothKeeps(s.pms);
    }
  }

  lemma {:induction false} CommitAllLoses(env: Env, s: Pacer, bs: seq<Blk>, hand: multiset<Batch>)
    requires Good(s, hand)
    ensures var s' := CommitAll(env, s, bs);
            && s'.pms.dropped == s.pms.dropped && s'.pending == s.pending && s'.proposer == s.proposer
            && (s.rotating ==> s'.pms.finish.None?) && (!s.rotating ==> s'.pms == s.pms && !s'.rotating)
  {
    hide Good, OnConsensus;
    if bs == [] {
      if s.rotating {
        NoneHeldInRotation(s, hand);
      }
    } else {
      var n := |bs| - 1;
      CommitAllLoses(env, s, bs[..n], hand);
      CommitAllKeeps(env, s, bs[..n], hand);
      var s1 := CommitAll(env, s, bs[..n]);
      OnConsensusLoses(env, s1, bs[n], hand);
      if s.rotating && s1.rotating {
        NoneHeldInRotation(s1, hand);
      }
    }
  }

  /** Through an open gate, to a block without a certificate: the oldest beat is held. */
  lemma ScheduledIsHeld(s: Pacer, hand: multiset<Batch>)
    requires Good(s, hand) && !s.rotating && s.pending != [] && !s.locked && s.lastProposed !in s.certified
    ensures var s' := ScheduleNext(s).0;
            s'.pending == s.pending[1..] && Held(s'.pms) == Some(s.pending[0]) && s'.pms.finish == Some(s.lastProposed)
  {
    hide Wired, Watch, Reject, HoldBeat, Accounted;
    RejectDropsHeldOnly(s.pms, s.pms.finish);
    HoldBeatKeeps(Reject(s.pms, s.pms.finish), s.lastProposed, s.pending[0]);
  }

  /** What a new block does to the queue and to the held beat. */
  ghost predicate MovesUp(s: Pacer, s': Pacer) {
    if s.pending == [] then s'.pending == [] && Held(s'.pms) == Held(s.pms) && s'.pms.finish == s.pms.finish
    else
      && s'.pending == s.pending[1..] && Held(s'.pms) == Some(s.pending[0])
      && s'.pms.finish.Some? && s'.pms.manual != s'.pms.finish
  }

  lemma NewLastMoves(s: Pacer, b: Blk, hand: multiset<Batch>)
    requires Good(s, hand) && Known(s.own, b) && b !in s.pms.qcs && b !in s.certified
    ensures if s.rotating then NewLast(s, b) == s else MovesUp(s, NewLast(s, b))
    ensures !s.rotating && s.pending == [] ==> NewLast(s, b).pms == s.pms
  {
    hide Wired, Accounted, ScheduleNext, Watch;
    FinishIsListed(s.pms);
    NewLastProposes(s, b, hand);
    if s.armed && s.pending != [] {
      var s1 := s.(lastProposed := b, locked := false);
      ScheduledIsHeld(s1, hand);
    } else if s.armed {
      EmptyQueue(s.(lastProposed := b, locked := false));
    }
  }

  lemma EmptyQueue(s: Pacer)
    requires s.pending == []
    ensures ScheduleNext(s) == (s, None)
  {
  }

  /** on_propose forgets the held batch exactly if another one is queued. */
  lemma OnProposeLoses(env: Env, s: Pacer, batch: Option<Batch>, hand: multiset<Batch>)
    requires Good(s, if batch.Some? then hand + multiset{batch.value} else hand)
    ensures var s' := OnPropose(env, s, batch);
            && s'.pms.dropped == s.pms.dropped + (if s.pending != [] then Bag(Held(s.pms)) else multiset{})
            && s'.proposer == s.proposer
            && (!s.rotating ==> MovesUp(s, s'))
            && (!s.rotating && s.pending == [] ==> s'.pms == s.pms)
            && (s.rotating && s'.pms.finish.Some? ==> s'.pms.manual != s'.pms.finish)
  {
    hide Good, NewLast, Held, CommitAll, NoteReceived, NoteOwn, MovesUp;
    var b := Own(s.own);
    NowProposedKeeps(s, batch, hand);
    var s1 := NowProposed(s, batch);
    CommitAllKeeps(env, s1, env.commits(s.own), hand);
    CommitAllLoses(env, s1, env.commits(s.own), hand);
    var s2 := CommitAll(env, s1, env.commits(s.own));
    NoteKeeps(env, s2, env.id, b, hand);
    var s3 := NoteReceived(s2, env.id, b);
    NoteKeeps(env, s3, env.id, b, hand);
    var s4 := NoteOwn(env, s3, b);
    NewLastKeeps(s4, b, hand);
    NewLastMoves(s4, b, hand);
    assert OnPropose(env, s, batch) == NewLast(s4, b);
    MovesAlong(s, s2, s4, NewLast(s4, b));
    FinishOfNewLast(s4, b, hand);
    if s.rotating {
      HeldNeedsFinish(s.pms, s4.pms);
      RotatingHoldsNone(s, batch, hand);
    }
  }

  lemma RotatingHoldsNone(s: Pacer, batch: Option<Batch>, hand: multiset<Batch>)
    requires Good(s, if batch.Some? then hand + multiset{batch.value} else hand) && s.rotating
    ensures Held(s.pms).None?
  {
  }

  lemma HeldNeedsFinish(ps: Promises, ps': Promises)
    ensures ps.finish.None? ==> Held(ps).None?
    ensures ps'.finish.None? ==> Held(ps').None?
  {
  }

  lemma MovesAlong(s: Pacer, s2: Pacer, s4: Pacer, s': Pacer)
    requires s2.pms == s4.pms && s2.pending == s4.pending == s.pending
    ensures s.pms == s4.pms && MovesUp(s4, s') ==> MovesUp(s, s')
  {
  }

  lemma FinishOfNewLast(s: Pacer, b: Blk, hand: multiset<Batch>)
    requires Good(s, hand) && Known(s.own, b) && b !in s.pms.qcs && b !in s.certified
    ensures var s' := NewLast(s, b);
            s.pms.finish.None? && s'.pms.finish.Some? ==> s'.pms.manual != s'.pms.finish
  {
    hide Wired, Accounted, ScheduleNext, Watch;
    FinishIsListed(s.pms);
    if s.armed && s.pending != [] {
      var s1 := s.(lastProposed := b, locked := false);
      ScheduleNextKeeps(s1, hand);
      ScheduledIsHeld(s1, hand);
    } else if s.armed {
      EmptyQueue(s.(lastProposed := b, locked := false));
    }
  }

  lemma NewConsensusLoses(env: Env, s: Pacer, x: nat, hand: multiset<Batch>)
    requires Good(s, hand)
    ensures var s' := NewConsensus(env, s, x);
            && s'.pms.dropped == s.pms.dropped + LostByChain(s) && s'.proposer == s.proposer
            && (!s.rotating ==>
                  if s.pending == [] then s'.pending == [] && (Held(s.pms).None? ==> Held(s'.pms).None?)
                  else s'.pending == s.pending[1..] && Held(s'.pms) == Some(s.pending[0]))
  {
    hide Good, OnPropose, Reject, HoldChain, Wired;
    OnProposeKeeps(env, s, None, hand);
    OnProposeLoses(env, s, None, hand);
    var s1 := OnPropose(env, s, None);
    GoodWired(s1, hand);
    RejectDropsHeldOnly(s1.pms, s1.pms.manual);
    var ps := Reject(s1.pms, s1.pms.manual);
    FinishIsListed(s1.pms);
    HoldChainKeeps(ps, Own(s.own), x);
    HeldNeedsFinish(s1.pms, s.pms);
    if s.rotating {
      RotatingHoldsNone(s, None, hand);
    }
  }

  lemma FireBeatLoses(env: Env, s: Pacer, batch: Batch, hand: multiset<Batch>)
    requires Good(s, hand + multiset{batch})
    ensures var s' := FireBeat(env, s, batch);
            && s'.pms.dropped == s.pms.dropped
                  + (if s.proposer != env.id then multiset{batch}
                     else if s.pending != [] then Bag(Held(s.pms)) else multiset{})
            && s'.proposer == s.proposer && (s.proposer == env.id && !s.rotating ==> MovesUp(s, s'))
            && (s.proposer != env.id ==>
                  s'.pending == s.pending && Held(s'.pms) == Held(s.pms)
                  && s'.pms.finish == s.pms.finish && s'.pms.manual == s.pms.manual)
            && (!s.rotating ==> !s'.rotating && s'.pms.manual in {None, s.pms.manual})
  {
    hide Good, OnPropose, MovesUp, Accounted;
    if s.proposer == env.id {
      OnProposeKeeps(env, s, Some(batch), hand);
      OnProposeLoses(env, s, Some(batch), hand);
    } else {
      SameHeld(s.pms, s.pms.(dropped := s.pms.dropped + multiset{batch}));
    }
  }

  lemma SameHeld(ps: Promises, ps': Promises)
    requires ps'.qcs == ps.qcs && ps'.finish == ps.finish
    ensures Held(ps') == Held(ps)
  {
  }

  /** Both callbacks of one certificate, in either order. */
  lemma BothFireLose(env: Env, s: Pacer, batch: Batch, x: nat, beatFirst: bool)
    requires Good(s, multiset{batch}) && !s.rotating && s.pms.finish.None? && s.pms.manual.None?
    ensures var s' := if beatFirst then NewConsensus(env, FireBeat(env, s, batch), x)
                      else FireBeat(env, NewConsensus(env, s, x), batch);
            s'.pms.dropped == s.pms.dropped
              + (if s.proposer != env.id then multiset{batch}
                 else if |s.pending| >= 2 then multiset{s.pending[0]} else multiset{})
  {
    hide Good, FireBeat, NewConsensus, Held;
    HeldNeedsFinish(s.pms, s.pms);
    assert multiset{} + multiset{batch} == multiset{batch};
    if beatFirst {
      FireBeatLoses(env, s, batch, multiset{});
      FireBeatKeeps(env, s, batch, multiset{});
      NewConsensusLoses(env, FireBeat(env, s, batch), x, multiset{});
    } else {
      NewConsensusLoses(env, s, x, multiset{batch});
      NewConsensusKeeps(env, s, x, multiset{batch});
      FireBeatLoses(env, NewConsensus(env, s, x), batch, multiset{});
    }
  }

  lemma FireTwo(env: Env, s: Pacer, c: Callback, d: Callback)
    ensures Fire(env, s, [c]) == FireOne(env, s, c)
    ensures Fire(env, s, [c, d]) == FireOne(env, FireOne(env, s, c), d)
  {
    hide FireOne;
    assert [c][..0] == [];
    assert [c, d][..1] == [c];
  }

  lemma BeatsOfTwo(c: Callback, d: Callback)
    ensures Beats([c]) == if c.BeatCb? then multiset{c.batch} else multiset{}
    ensures Beats([c, d]) == Beats([c]) + Beats([d])
  {
    assert [c][..0] == [];
    assert [d][..0] == [];
    assert [c, d][..1] == [c];
  }

  /** The callbacks that the certificate of b sets off. */
  lemma WhatFires(s: Pacer, b: Blk, byVotes: bool)
    requires Good(s, multiset{}) && Known(s.own, b)
    ensures var (s1, cbs) := Settled(s, b, byVotes);
            && Fits(cbs, s.pms.finish == Some(b), s.pms.manual == Some(b))
            && (s.pms.finish == Some(b) ==> BeatOf(cbs) == Held(s.pms) && Held(s.pms).Some? && !s.rotating)
            && (s.pms.finish == Some(b) || s.pms.manual == Some(b) ==>
                  b in s.pms.qcs && s.pms.qcs[b] == Waiting(cbs))
  {
    hide Names, Watch, Accounted;
    if b in s.pms.qcs && s.pms.qcs[b].Waiting? {
      BeatsFit(s.pms.qcs[b].cbs, s.pms.finish == Some(b), s.pms.manual == Some(b));
    }
  }

  lemma AfterSettled(s: Pacer, b: Blk, byVotes: bool)
    requires Good(s, multiset{}) && Known(s.own, b)
    ensures var (s1, cbs) := Settled(s, b, byVotes);
            && s1.pms.dropped == s.pms.dropped && s1.pending == s.pending && s1.rotating == s.rotating
            && s1.proposer == s.proposer
            && s1.pms.finish == (if s.pms.finish == Some(b) then None else s.pms.finish)
            && s1.pms.manual == (if s.pms.manual == Some(b) then None else s.pms.manual)
            && Held(s1.pms) == (if s.pms.finish == Some(b) then None else Held(s.pms))
  {
    hide Wired, Names, Watch, Accounted, Held;
    FinishIsListed(s.pms);
    if b in s.pms.qcs {
      RemoveKeeps(s.pms, b);
    } else {
      SameHeld(s.pms, Settled(s, b, byVotes).0.pms);
    }
  }

  /** What is lost by one callback, and by a beat and a continuation of do_new_consensus. */
  function LostByOne(env: Env, s: Pacer, cb: Callback): multiset<Batch> {
    match cb
    case BeatCb(batch) => if s.proposer != env.id then multiset{batch} else multiset{}
    case ChainCb(x) => if x < LeaderChain.Lag(env.build) && s.pending != [] then Bag(Held(s.pms)) else multiset{}
  }

  function LostByBoth(env: Env, s: Pacer, c: Callback, d: Callback): multiset<Batch>
    requires c.BeatCb? != d.BeatCb?
  {
    var batch, x := if c.BeatCb? then c.batch else d.batch, if c.BeatCb? then d.x else c.x;
    if s.proposer != env.id then multiset{batch}
    else if x < LeaderChain.Lag(env.build) && |s.pending| >= 2 then multiset{s.pending[0]}
    else multiset{}
  }

  lemma LostByCallbacks(env: Env, s: Pacer, b: Blk, byVotes: bool)
    requires Good(s, multiset{}) && Known(s.own, b)
    ensures var (s1, cbs) := Settled(s, b, byVotes);
            && |cbs| <= 2
            && (|cbs| == 2 ==> cbs[0].BeatCb? != cbs[1].BeatCb?)
            && LostByQc(env, s, b) == (if |cbs| == 0 then multiset{} else if |cbs| == 1 then LostByOne(env, s1, cbs[0])
                                       else LostByBoth(env, s1, cbs[0], cbs[1]))
  {
    hide Good, Settled, Held, LeaderChain.Lag;
    WhatFires(s, b, byVotes);
    AfterSettled(s, b, byVotes);
    WhatIsFree(s, b, byVotes);
  }

  /** The promises whose callbacks are run are no longer held. */
  lemma WhatIsFree(s: Pacer, b: Blk, byVotes: bool)
    requires Good(s, multiset{}) && Known(s.own, b)
    ensures var (s1, cbs) := Settled(s, b, byVotes);
            && (|cbs| > 0 && cbs[0].BeatCb? ==> s1.pms.finish.None?)
            && (|cbs| > 0 && cbs[0].ChainCb? ==> s1.pms.manual.None?)
            && (|cbs| == 2 ==> s1.pms.finish.None? && s1.pms.manual.None? && !s1.rotating)
            && (|cbs| > 0 && cbs[0].BeatCb? ==> Held(s.pms) == Some(cbs[0].batch))
  {
    hide Good, Settled, Held;
    WhatFires(s, b, byVotes);
    AfterSettled(s, b, byVotes);
  }

  lemma QcFinishLoses(env: Env, s: Pacer, b: Blk, byVotes: bool)
    requires Good(s, multiset{}) && Known(s.own, b)
    ensures QcFinish(env, s, b, byVotes).pms.dropped == s.pms.dropped + LostByQc(env, s, b)
  {
    hide Good, Settled, Fire, FireOne, Beats, LostByOne, LostByBoth, LostByQc;
    LostByCallbacks(env, s, b, byVotes);
    WhatIsFree(s, b, byVotes);
    AfterSettled(s, b, byVotes);
    SettledKeeps(s, b, byVotes);
    var (s1, cbs) := Settled(s, b, byVotes);
    if |cbs| == 0 {
      NoneFire(env, s1);
    } else if |cbs| == 1 {
      assert cbs == [cbs[0]];
      FireTwo(env, s1, cbs[0], cbs[0]);
      BeatsOfTwo(cbs[0], cbs[0]);
      OneFires(env, s1, cbs[0]);
    } else {
      assert cbs == [cbs[0], cbs[1]];
      FireTwo(env, s1, cbs[0], cbs[1]);
      BeatsOfTwo(cbs[0], cbs[1]);
      BeatsOfTwo(cbs[1], cbs[1]);
      assert Beats(cbs) == multiset{if cbs[0].BeatCb? then cbs[0].batch else cbs[1].batch};
      BothFire(env, s1, cbs[0], cbs[1]);
    }
  }

  lemma NoneFire(env: Env, s: Pacer)
    ensures Fire(env, s, []) == s
  {
  }

  lemma OneFires(env: Env, s: Pacer, cb: Callback)
    requires Good(s, if cb.BeatCb? then multiset{cb.batch} else multiset{})
    requires cb.BeatCb? ==> s.pms.finish.None?
    requires cb.ChainCb? ==> s.pms.manual.None?
    ensures FireOne(env, s, cb).pms.dropped == s.pms.dropped + LostByOne(env, s, cb)
  {
    hide Good, FireBeat, NewConsensus, Held;
    HeldNeedsFinish(s.pms, s.pms);
    match cb
    case BeatCb(batch) =>
      assert multiset{} + multiset{batch} == multiset{batch};
      FireBeatLoses(env, s, batch, multiset{});
    case ChainCb(x) =>
      if x < LeaderChain.Lag(env.build) {
        NewConsensusLoses(env, s, x + 1, multiset{});
      }
  }

  lemma BothFire(env: Env, s: Pacer, c: Callback, d: Callback)
    requires c.BeatCb? != d.BeatCb?
    requires Good(s, multiset{if c.BeatCb? then c.batch else d.batch})
    requires !s.rotating && s.pms.finish.None? && s.pms.manual.None?
    ensures FireOne(env, FireOne(env, s, c), d).pms.dropped == s.pms.dropped + LostByBoth(env, s, c, d)
  {
    hide Good, FireBeat, NewConsensus, Held;
    HeldNeedsFinish(s.pms, s.pms);
    var batch, x := if c.BeatCb? then c.batch else d.batch, if c.BeatCb? then d.x else c.x;
    if x < LeaderChain.Lag(env.build) {
      BothFireLose(env, s, batch, x + 1, c.BeatCb?);
    } else {
      assert multiset{} + multiset{batch} == multiset{batch};
      FireBeatLoses(env, s, batch, multiset{});
    }
  }

  /** In every state and event, whether rotating or re-proposing or not, exactly the batches of Lost are
      forgotten, and never more than one. */
  lemma DroppedExactly(env: Env, s: Pacer, e: Event)
    requires env.n > 0 && Good(s, multiset{})
    ensures Step(env, s, e).pms.dropped == s.pms.dropped + Lost(env, s, e) && |Lost(env, s, e)| <= 1
  {
    hide Good, Beat, QcFinish, Rotate, NewConsensus, Held, OnConsensus, NoteReceived, LostByChain, LostByQc;
    LosesAtMostOne(env, s, e);
    match e
    case Take(batch) => TakeLoses(env, s, batch);
    case Finish(b, byVotes) =>
      if Known(s.own, b) {
        QcFinishLoses(env, s, b, byVotes);
      }
    case Consensus(b) => OnConsensusLoses(env, s, b, multiset{});
    case Receive(who, b) => NoteKeeps(env, s, who, b, multiset{});
    case Impeach => RotateLoses(env, s);
    case ExpTimeout => NewConsensusLoses(env, s, 0, multiset{});
    case PropTimeout => RotateLoses(env, s);
    case RunCall(waiting) =>
      if s.calls > 0 {
        CallKeeps(s);
        CallsDoNotMatter(s);
        NewConsensusLoses(env, s.(calls := s.calls - 1), 0, multiset{});
      }
  }

  lemma CallsDoNotMatter(s: Pacer)
    requires s.calls > 0
    ensures LostByChain(s.(calls := s.calls - 1)) == LostByChain(s)
  {
  }

  lemma LosesAtMostOne(env: Env, s: Pacer, e: Event)
    ensures |Lost(env, s, e)| <= 1
  {
    hide Held, GoesOn;
  }

  lemma RotateLoses(env: Env, s: Pacer)
    requires env.n > 0 && Good(s, multiset{})
    ensures Rotate(env, s).pms.dropped == s.pms.dropped + Bag(Held(s.pms))
    ensures s.rotating ==> Bag(Held(s.pms)) == multiset{}
  {
    hide Wired, RejectBoth;
    RejectBothKeeps(s.pms);
    HeldNeedsFinish(s.pms, s.pms);
  }

  lemma BeatInRotation(env: Env, s: Pacer, batch: Batch)
    requires s.rotating
    ensures Beat(env, s, batch) == FireBeat(env, s, batch)
  {
    hide FireBeat, ScheduleNext;
  }

  lemma TakeLoses(env: Env, s: Pacer, batch: Batch)
    requires env.n > 0 && Good(s, multiset{})
    ensures Step(env, s, Take(batch)).pms.dropped == s.pms.dropped + Lost(env, s, Take(batch))
  {
    hide Good, Beat, Held, FireBeat, OnPropose;
    if s.proposer == env.id {
      TakenKeeps(s, batch);
      var s1 := s.(taken := s.taken + multiset{batch});
      if s.rotating {
        NoneHeldInRotation(s, multiset{});
        assert multiset{} + multiset{batch} == multiset{batch};
        FireBeatLoses(env, s1, batch, multiset{});
        BeatInRotation(env, s1, batch);
      } else {
        BeatDrops(env, s1, batch);
      }
    }
  }

  // ---- what each event proposes ----

  /** The batches that are proposed in an event: one that arrives during a rotation at once, otherwise
      the oldest of the queue when the gate is open and the last block certified; the held one when its
      certificate arrives. */
  function Proposing(env: Env, s: Pacer, e: Event): multiset<Batch> {
    if s.proposer != env.id then multiset{}
    else match e
      case Take(batch) =>
        if s.rotating then multiset{batch}
        else if !s.locked && s.lastProposed in s.certified then multiset{(s.pending + [batch])[0]}
        else multiset{}
      case Finish(b, byVotes) => if s.pms.finish == Some(b) && Known(s.own, b) then Bag(Held(s.pms)) else multiset{}
      case _ => multiset{}
  }

  function Taking(env: Env, s: Pacer, e: Event): multiset<Batch> {
    if e.Take? && s.proposer == env.id then multiset{e.batch} else multiset{}
  }

  lemma {:induction false} CommitAllProposes(env: Env, s: Pacer, bs: seq<Blk>)
    ensures var s' := CommitAll(env, s, bs);
            s'.proposed == s.proposed && s'.taken == s.taken && s'.proposer == s.proposer
  {
    hide RejectBoth;
    if bs != [] {
      CommitAllProposes(env, s, bs[..|bs| - 1]);
    }
  }

  lemma ScheduleNextProposes(s: Pacer)
    ensures var (s', ready) := ScheduleNext(s);
            && s'.proposed == s.proposed && s'.taken == s.taken && s'.proposer == s.proposer
            && ready == (if s.pending != [] && !s.locked && s.lastProposed in s.certified then Some(s.pending[0])
                         else None)
  {
    hide Reject, HoldBeat;
  }

  lemma OnProposeProposes(env: Env, s: Pacer, batch: Option<Batch>)
    ensures var s' := OnPropose(env, s, batch);
            s'.proposed == s.proposed + Bag(batch) && s'.taken == s.taken && s'.proposer == s.proposer
  {
    hide CommitAll, ScheduleNext;
    var b := Own(s.own);
    var s2 := CommitAll(env, NowProposed(s, batch), env.commits(s.own));
    CommitAllProposes(env, NowProposed(s, batch), env.commits(s.own));
    var s4 := NoteOwn(env, NoteReceived(s2, env.id, b), b);
    ScheduleNextProposes(s4.(lastProposed := b, locked := false));
  }

  lemma FireOneProposes(env: Env, s: Pacer, cb: Callback)
    ensures var s' := FireOne(env, s, cb);
            && s'.proposed == s.proposed + (if s.proposer == env.id then Beats([cb]) else multiset{})
            && s'.taken == s.taken && s'.proposer == s.proposer
  {
    hide OnPropose, Reject, HoldChain, Beats;
    BeatsOfTwo(cb, cb);
    match cb
    case BeatCb(batch) => OnProposeProposes(env, s, Some(batch));
    case ChainCb(x) => OnProposeProposes(env, s, None);
  }

  lemma {:induction false} FireProposes(env: Env, s: Pacer, cbs: seq<Callback>)
    ensures var s' := Fire(env, s, cbs);
            && s'.proposed == s.proposed + (if s.proposer == env.id then Beats(cbs) else multiset{})
            && s'.taken == s.taken && s'.proposer == s.proposer
  {
    hide FireOne;
    if cbs != [] {
      var n := |cbs| - 1;
      FireProposes(env, s, cbs[..n]);
      FireOneProposes(env, Fire(env, s, cbs[..n]), cbs[n]);
      BeatsOfTwo(cbs[n], cbs[n]);
    }
  }

  lemma QcFinishProposes(env: Env, s: Pacer, b: Blk, byVotes: bool)
    requires Good(s, multiset{}) && Known(s.own, b)
    ensures var s' := QcFinish(env, s, b, byVotes);
            && s'.proposed == s.proposed + Proposing(env, s, Finish(b, byVotes)) && s'.taken == s.taken
  {
    hide Good, Fire, Settled, Beats, BeatOf, Held;
    var (s1, cbs) := Settled(s, b, byVotes);
    FireProposes(env, s1, cbs);
    SettledProposes(s, b, byVotes);
    WhatFires(s, b, byVotes);
    BeatsFit(cbs, s.pms.finish == Some(b), s.pms.manual == Some(b));
  }

  lemma SettledProposes(s: Pacer, b: Blk, byVotes: bool)
    ensures var s' := Settled(s, b, byVotes).0;
            s'.proposed == s.proposed && s'.taken == s.taken && s'.proposer == s.proposer
  {
    hide Remove;
  }

  lemma BeatProposes(env: Env, s: Pacer, batch: Batch)
    requires s.proposer == env.id
    ensures var s' := Beat(env, s, batch);
            s'.proposed == s.proposed + Proposing(env, s, Take(batch)) && s'.taken == s.taken
  {
    hide ScheduleNext, OnPropose, Held;
    if s.rotating {
      OnProposeProposes(env, s, Some(batch));
    } else {
      var s0 := s.(pending := s.pending + [batch]);
      ScheduleNextProposes(s0);
      var (s1, ready) := ScheduleNext(s0);
      OnProposeProposes(env, s1, ready);
      OnProposeProposes(env, s1.(locked := true), ready);
    }
  }

  /** So in every state and event: which batches are taken, which are proposed and which are forgotten,
      exactly; what is left is queued or held. */
  lemma EventIsExact(env: Env, s: Pacer, e: Event)
    requires env.n > 0 && Good(s, multiset{})
    ensures var s' := Step(env, s, e);
            && Good(s', multiset{})
            && s'.taken == s.taken + Taking(env, s, e)
            && s'.proposed == s.proposed + Proposing(env, s, e)
            && s'.pms.dropped == s.pms.dropped + Lost(env, s, e)
            && s'.taken == multiset(s'.pending) + Bag(Held(s'.pms)) + s'.proposed + s'.pms.dropped
  {
    hide Good, Step, Proposing, Taking, Lost, Held;
    StepKeeps(env, s, e);
    DroppedExactly(env, s, e);
    StepProposes(env, s, e);
    GoodWired(Step(env, s, e), multiset{});
  }

  lemma StepProposes(env: Env, s: Pacer, e: Event)
    requires env.n > 0 && Good(s, multiset{})
    ensures var s' := Step(env, s, e);
            s'.taken == s.taken + Taking(env, s, e) && s'.proposed == s.proposed + Proposing(env, s, e)
  {
    hide Good, Beat, QcFinish, NewConsensus, OnConsensus, NoteReceived, Rotate, Held;
    match e
    case Take(batch) =>
      if s.proposer == env.id {
        BeatProposes(env, s.(taken := s.taken + multiset{batch}), batch);
      }
    case Finish(b, byVotes) =>
      if Known(s.own, b) {
        QcFinishProposes(env, s, b, byVotes);
      }
    case Consensus(b) => OthersPropose(env, s, e);
    case Receive(who, b) => OthersPropose(env, s, e);
    case Impeach => OthersPropose(env, s, e);
    case ExpTimeout => NewConsensusProposes(env, s);
    case PropTimeout => OthersPropose(env, s, e);
    case RunCall(waiting) =>
      if s.calls > 0 {
        NewConsensusProposes(env, s.(calls := s.calls - 1));
      }
  }

  lemma NewConsensusProposes(env: Env, s: Pacer)
    ensures NewConsensus(env, s, 0).proposed == s.proposed && NewConsensus(env, s, 0).taken == s.taken
  {
    hide OnPropose, Reject, HoldChain;
    OnProposeProposes(env, s, None);
  }

  lemma OthersPropose(env: Env, s: Pacer, e: Event)
    requires env.n > 0 && (e.Consensus? || e.Receive? || e.Impeach? || e.PropTimeout?)
    ensures Step(env, s, e).proposed == s.proposed && Step(env, s, e).taken == s.taken
  {
    hide RejectBoth, Beat, QcFinish, NewConsensus;
  }

  // ---- when a batch is forgotten outside a rotation ----

  /** The event does not run do_new_consensus, nor start a rotation. */
  predicate ChainFree(env: Env, s: Pacer, e: Event) {
    match e
    case Finish(b, _) => s.pms.manual != Some(b)
    case ExpTimeout => s.proposer != env.id
    case RunCall(waiting) => !waiting || s.calls == 0
    case Impeach => false
    case PropTimeout => false
    case _ => true
  }

  lemma BeatDrops(env: Env, s: Pacer, batch: Batch)
    requires Good(s, multiset{batch}) && !s.rotating && s.proposer == env.id
    ensures var s' := Beat(env, s, batch);
            && s'.pms.dropped == s.pms.dropped + (if s.locked then multiset{} else Bag(Held(s.pms)))
            && !s'.rotating && s'.proposer == env.id
            && (s'.pms.finish.Some? ==> s'.locked || s'.pms.finish == s.pms.finish)
            && (!s.locked && s'.pms.finish.Some? ==> s'.locked)
            && (s.locked ==> s'.locked)
  {
    hide Good, ScheduleNext, OnPropose;
    QueuedKeeps(s, batch);
    var s0 := s.(pending := s.pending + [batch]);
    ScheduleNextKeeps(s0, multiset{});
    var (s1, ready) := ScheduleNext(s0);
    if ready.Some? {
      LockedKeeps(s1, multiset{} + multiset{ready.value});
      OnProposeKeeps(env, s1, ready, multiset{});
      OnProposeKeeps(env, s1.(locked := true), ready, multiset{});
    }
  }

  lemma GoodWired(s: Pacer, hand: multiset<Batch>)
    requires Good(s, hand)
    ensures Wired(s.pms) && Accounted(s.taken, s.pending, s.pms, s.proposed, hand)
  {
  }

  lemma BagMatters(m: multiset<Batch>, b: Option<Batch>)
    ensures m + Bag(b) != m <==> b.Some?
  {
    if b.Some? {
      assert (m + Bag(b))[b.value] == m[b.value] + 1;
    }
  }

  lemma OneBeatFires(env: Env, s: Pacer, b: Blk, byVotes: bool)
    requires Good(s, multiset{}) && Known(s.own, b) && s.pms.manual != Some(b)
    ensures Settled(s, b, byVotes).1 == if s.pms.finish == Some(b) then [BeatCb(Held(s.pms).value)] else []
    ensures s.pms.finish == Some(b) ==> Held(s.pms).Some?
  {
    hide Names, Watch, Accounted, Known;
    if b in s.pms.qcs && s.pms.qcs[b].Waiting? {
      BeatsFit(s.pms.qcs[b].cbs, s.pms.finish == Some(b), false);
    }
  }

  lemma FinishDrops(env: Env, s: Pacer, b: Blk, byVotes: bool)
    requires Good(s, multiset{}) && Known(s.own, b) && s.pms.manual != Some(b) && !s.rotating
    ensures var s' := QcFinish(env, s, b, byVotes);
            && s'.pms.dropped == s.pms.dropped
                  + (if s.pms.finish == Some(b) && s.proposer != env.id then Bag(Held(s.pms)) else multiset{})
            && !s'.rotating && s'.proposer == s.proposer
            && (if s.pms.finish == Some(b) then s'.pms.finish.Some? ==> s'.locked && s.proposer == env.id
                else s'.pms.finish == s.pms.finish && s'.locked == s.locked)
  {
    hide Good, Wired, Accounted, Held, Remove, FireOne, Beats, Known;
    GoodWired(s, multiset{});
    SettledAccounts(s, b, byVotes);
    QcFinishKeeps(env, s, b, byVotes);
    OneBeatFires(env, s, b, byVotes);
    if s.pms.finish == Some(b) {
      SettledKeeps(s, b, byVotes);
      SingleBeatFires(env, Settled(s, b, byVotes).0, Held(s.pms).value);
    }
  }

  lemma SingleBeatFires(env: Env, s: Pacer, batch: Batch)
    requires Good(s, Beats([BeatCb(batch)])) && !s.rotating && s.pms.finish.None?
    ensures var s' := Fire(env, s, [BeatCb(batch)]);
            && s'.pms.dropped == s.pms.dropped + (if s.proposer != env.id then multiset{batch} else multiset{})
            && !s'.rotating && s'.proposer == s.proposer
            && (s'.pms.finish.Some? ==> s'.locked && s.proposer == env.id)
  {
    hide Good, OnPropose;
    var cbs := [BeatCb(batch)];
    assert cbs[..0] == [];
    assert Beats(cbs) == multiset{} + multiset{batch};
    assert Fire(env, s, cbs) == FireBeat(env, s, batch);
    if s.proposer == env.id {
      OnProposeKeeps(env, s, Some(batch), multiset{});
    }
  }

  lemma HeldWhileUnsettled(s: Pacer)
    requires Good(s, multiset{})
    ensures Held(s.pms).Some? <==> s.pms.finish.Some?
  {
    if s.pms.finish.Some? {
      BeatsFit(s.pms.qcs[s.pms.finish.value].cbs, true, s.pms.manual == s.pms.finish);
    }
  }

  /** Outside a rotation, and apart from do_new_consensus, a batch is forgotten in exactly two cases: a
      new batch arrives while the gate is open although a beat still waits for its certificate, or
      that certificate arrives when somebody else is the proposer. */
  lemma ForgetsExactly(env: Env, s: Pacer, e: Event)
    requires env.n > 0 && Good(s, multiset{}) && !s.rotating && ChainFree(env, s, e)
    ensures Step(env, s, e).pms.dropped != s.pms.dropped <==>
              || (e.Take? && s.proposer == env.id && !s.locked && s.pms.finish.Some?)
              || (e.Finish? && s.pms.finish == Some(e.blk) && s.proposer != env.id)
  {
    hide Good, Step, Held, Bag;
    DroppedExactly(env, s, e);
    HeldWhileUnsettled(s);
    BagMatters(s.pms.dropped, Held(s.pms));
    FinishIsKnown(s);
  }

  lemma FinishIsKnown(s: Pacer)
    requires Good(s, multiset{})
    ensures s.pms.finish.Some? ==> Known(s.own, s.pms.finish.value)
  {
    hide Watch, Accounted;
    FinishIsListed(s.pms);
  }

  /** A waiting beat has been overtaken: by a block that do_new_consensus proposed, which opened the
      gate, or by a change of proposer. */
  predicate Overtaken(env: Env, s: Pacer) {
    s.pms.finish.Some? && (!s.locked || s.proposer != env.id)
  }

  lemma ChainFreeStep(env: Env, s: Pacer, e: Event)
    requires env.n > 0 && Good(s, multiset{}) && !s.rotating && ChainFree(env, s, e) && !Overtaken(env, s)
    ensures var s' := Step(env, s, e);
            !s'.rotating && !Overtaken(env, s') && s'.pms.dropped == s.pms.dropped
  {
    hide Wired, Good, Beat, QcFinish, CommitAll;
    match e
    case Take(batch) =>
      if s.proposer == env.id {
        TakenKeeps(s, batch);
        BeatDrops(env, s.(taken := s.taken + multiset{batch}), batch);
      }
    case Finish(b, byVotes) =>
      if Known(s.own, b) {
        FinishDrops(env, s, b, byVotes);
      }
    case Consensus(b) => OnConsensusKeeps(env, s, b, multiset{});
    case _ =>
  }

  ghost predicate ChainFreeRun(env: Env, s: Pacer, es: seq<Event>)
    requires env.n > 0
  {
    forall k :: 0 <= k < |es| ==> ChainFree(env, RunFrom(env, s, es[..k]), es[k])
  }

  /** So from a state without an overtaken beat, such as stop_rotate leaves, nothing is forgotten for as
      long as there is no rotation and do_new_consensus does not run. */
  lemma {:induction false} TenureForgetsNothing(env: Env, s: Pacer, es: seq<Event>)
    requires env.n > 0 && Good(s, multiset{}) && !s.rotating && !Overtaken(env, s) && ChainFreeRun(env, s, es)
    ensures var s' := RunFrom(env, s, es);
            Good(s', multiset{}) && !s'.rotating && !Overtaken(env, s') && s'.pms.dropped == s.pms.dropped
  {
    hide Good, ChainFree, Overtaken, Step;
    if es != [] {
      var n := |es| - 1;
      forall k | 0 <= k < n ensures ChainFree(env, RunFrom(env, s, es[..n][..k]), es[..n][k]) {
        assert es[..n][..k] == es[..k];
      }
      TenureForgetsNothing(env, s, es[..n]);
      StepKeeps(env, RunFrom(env, s, es[..n]), es[n]);
      ChainFreeStep(env, RunFrom(env, s, es[..n]), es[n]);
    }
  }

  lemma StopRotateLeavesNoneOvertaken(env: Env, s: Pacer)
    requires Wired(s.pms)
    ensures !Overtaken(env, StopRotate(env, s)) && !StopRotate(env, s).rotating
  {
    RejectBothKeeps(s.pms);
  }

  // ---- a batch that is forgotten although no rotation and no re-proposal is going on ----

  /** The certificates of the first k blocks of a re-proposal that follows block 0. */
  function Certificates(k: nat): seq<Event> {
    if k == 0 then [] else Certificates(k - 1) + [Finish(Own(k), true)]
  }

  /** Two batches arrive at the first proposer; the second waits for the certificate of the first block.
      The re-proposal scheduled by init runs to its end, each of its blocks getting its certificate, the
      first block not. */
  function Overtaking(env: Env, a: Batch, b: Batch): seq<Event> {
    [Take(a), Take(b), RunCall(true)] + Certificates(LeaderChain.Lag(env.build) + 1)
  }

  lemma RunSteps(env: Env, es: seq<Event>, e: Event)
    requires env.n > 0
    ensures Run(env, es + [e]) == Step(env, Run(env, es), e)
  {
    assert (es + [e])[..|es|] == es;
  }

  /** The first proposer, never having rotated, with block `last` proposed last and nothing queued. */
  predicate Calm(s: Pacer, last: nat) {
    && !s.rotating && s.proposer == 0 && s.pending == [] && s.armed && s.propBlk == map[]
    && !s.ownListen && !s.recvListen && s.lastProposed == Own(last) && s.own == last + 1 && s.pms.dropped == multiset{}
  }

  /** Then `update` may commit whatever it likes. */
  lemma {:induction false} CommitsDoNotMatter(env: Env, s: Pacer, bs: seq<Blk>)
    requires s.propBlk == map[]
    ensures CommitAll(env, s, bs) == s.(committed := CommitAll(env, s, bs).committed)
  {
    if bs != [] {
      CommitsDoNotMatter(env, s, bs[..|bs| - 1]);
    }
  }

  lemma ProposesCalmly(env: Env, s: Pacer, batch: Option<Batch>)
    requires s.propBlk == map[] && s.armed && s.pending == [] && !s.ownListen && !s.recvListen
    ensures var s' := OnPropose(env, s, batch);
            s' == s.(own := s.own + 1, proposed := s.proposed + Bag(batch), committed := s'.committed,
                     lastProposed := Own(s.own), locked := false)
  {
    CommitsDoNotMatter(env, NowProposed(s, batch), env.commits(s.own));
  }

  lemma FirstProposal(env: Env, a: Batch)
    requires env.n > 0 && env.id == 0
    ensures var s := Run(env, [Take(a)]);
            Calm(s, 0) && !s.locked && s.calls == 1 && s.certified == {Origin} && s.pms == Init(env).pms
  {
    hide OnPropose;
    RunSteps(env, [], Take(a));
    assert [] + [Take(a)] == [Take(a)];
    var s := Init(env).(taken := multiset{} + multiset{a});
    var s0 := s.(pending := s.pending + [a]);
    assert s0.pending == [a] && [a][1..] == [];
    assert ScheduleNext(s0) == (s0.(pending := []), Some(a));
    ProposesCalmly(env, s0.(pending := [], locked := true), Some(a));
  }

  /** Block 0's certificate is waited for by the beat of b. */
  function HeldPms(b: Batch): Promises {
    Promises(map[Own(0) := Waiting([BeatCb(b)])], Some(Own(0)), None, multiset{})
  }

  lemma SecondHeld(env: Env, a: Batch, b: Batch)
    requires env.n > 0 && env.id == 0
    ensures var s := Run(env, [Take(a), Take(b)]); Calm(s, 0) && s.calls == 1 && s.pms == HeldPms(b)
  {
    hide OnPropose;
    FirstProposal(env, a);
    RunSteps(env, [Take(a)], Take(b));
    assert [Take(a)] + [Take(b)] == [Take(a), Take(b)];
  }

  /** Block x + 1 has been proposed by the x-th step of the re-proposal. */
  predicate Chaining(s: Pacer, x: nat, b: Batch) {
    && Calm(s, x + 1) && !s.locked && s.calls == 0
    && s.pms == Promises(map[Own(0) := Waiting([BeatCb(b)]), Own(x + 1) := Waiting([ChainCb(x)])],
                         Some(Own(0)), Some(Own(x + 1)), multiset{})
  }

  lemma ChainStarts(env: Env, s: Pacer, x: nat, b: Batch)
    requires Calm(s, x) && s.calls == 0 && s.pms == HeldPms(b)
    ensures Chaining(NewConsensus(env, s, x), x, b)
  {
    ProposesCalmly(env, s, None);
  }

  lemma ChainGoesOn(env: Env, s: Pacer, x: nat, b: Batch)
    requires env.n > 0 && Chaining(s, x, b)
    ensures var s' := Step(env, s, Finish(Own(x + 1), true));
            if x < LeaderChain.Lag(env.build) then Chaining(s', x + 1, b)
            else Calm(s', x + 1) && !s'.locked && s'.calls == 0 && s'.pms == HeldPms(b)
  {
    hide NewConsensus;
    var s1 := Settled(s, Own(x + 1), true).0;
    assert s.pms.qcs - {Own(x + 1)} == map[Own(0) := Waiting([BeatCb(b)])];
    FireTwo(env, s1, ChainCb(x), ChainCb(x));
    if x < LeaderChain.Lag(env.build) {
      ChainStarts(env, s1, x + 1, b);
    }
  }

  lemma {:induction false} Reproposal(env: Env, a: Batch, b: Batch, k: nat)
    requires env.n > 0 && env.id == 0 && k <= LeaderChain.Lag(env.build) + 1
    ensures var s := Run(env, [Take(a), Take(b), RunCall(true)] + Certificates(k));
            if k <= LeaderChain.Lag(env.build) then Chaining(s, k, b)
            else Calm(s, k) && !s.locked && s.calls == 0 && s.pms == HeldPms(b)
  {
    hide NewConsensus, Step, Calm, Chaining, HeldPms;
    var es := [Take(a), Take(b), RunCall(true)];
    if k == 0 {
      ReproposalStarts(env, a, b);
      assert es + Certificates(0) == es;
    } else {
      Reproposal(env, a, b, k - 1);
      RunSteps(env, es + Certificates(k - 1), Finish(Own(k), true));
      assert es + Certificates(k) == (es + Certificates(k - 1)) + [Finish(Own(k), true)];
      ChainGoesOn(env, Run(env, es + Certificates(k - 1)), k - 1, b);
    }
  }

  lemma ReproposalStarts(env: Env, a: Batch, b: Batch)
    requires env.n > 0 && env.id == 0
    ensures Chaining(Run(env, [Take(a), Take(b), RunCall(true)]), 0, b)
  {
    hide NewConsensus, Chaining, HeldPms;
    SecondHeld(env, a, b);
    RunSteps(env, [Take(a), Take(b)], RunCall(true));
    assert [Take(a), Take(b)] + [RunCall(true)] == [Take(a), Take(b), RunCall(true)];
    ChainStarts(env, Run(env, [Take(a), Take(b)]).(calls := 0), 0, b);
  }

  /** Now nothing is rotating, nothing is scheduled and do_new_consensus is over; yet the next batch to
      arrive makes the one that is waiting disappear.  This happens to the first proposer in both
      builds, whatever `update` commits in between. */
  lemma OvertakenBatchIsForgotten(env: Env, a: Batch, b: Batch, c: Batch)
    requires env.n > 0 && env.id == 0
    ensures var s := Run(env, Overtaking(env, a, b));
            && !s.rotating && s.pms.manual.None? && s.calls == 0 && Held(s.pms) == Some(b)
            && s.pms.dropped == multiset{}
            && ChainFree(env, s, Take(c))
            && Step(env, s, Take(c)).pms.dropped == multiset{b}
  {
    hide Step;
    Reproposal(env, a, b, LeaderChain.Lag(env.build) + 1);
    EveryBatchIsAccountedFor(env, Overtaking(env, a, b));
    DroppedExactly(env, Run(env, Overtaking(env, a, b)), Take(c));
  }
}
