/** PMRoundRobinProposer as the mutable object it is.  The last methods are its events: each keeps the
    account of all batches taken, and says exactly which batches are taken, proposed and forgotten.
    The others take the single steps that RoundRobin defines. */
module RoundRobinProposer {
  import opened Core
  import opened RoundRobin
  import opened RoundRobinLosses
  import opened RoundRobinTurns
  import LeaderChain

  class PMRoundRobinProposer {
    const env: Env
    var rotating: bool
    var proposer: ReplicaId
    var pendingBeats: seq<Batch>
    var locked: bool
    var lastProposed: Blk
    var pmQcFinish: Option<Blk>
    var pmQcManual: Option<Blk>
    var pmWaitPropose: bool
    var propBlk: map<ReplicaId, Blk>
    var ownListen: bool
    var recvListen: bool
    var calls: nat
    // of the core
    var qcWaiting: map<Blk, Qc>
    var certified: set<Blk>
    var own: nat
    var committed: set<Blk>
    // history
    ghost var taken: multiset<Batch>
    ghost var proposed: multiset<Batch>
    ghost var dropped: multiset<Batch>

    ghost function Pms(): Promises
      reads this
    {
      Promises(qcWaiting, pmQcFinish, pmQcManual, dropped)
    }

    ghost function View(): Pacer
      reads this
    {
      Pacer(rotating, proposer, pendingBeats, locked, lastProposed, Pms(), pmWaitPropose, certified, propBlk, ownListen,
            recvListen, calls, own, committed, taken, proposed)
    }

    /** Between events. */
    ghost predicate Valid()
      reads this
    {
      env.n > 0 && Good(View(), multiset{})
    }

    constructor (env: Env)
      requires env.n > 0
      ensures this.env == env && Valid() && View() == Init(env)
    {
      this.env := env;
      rotating, proposer, pendingBeats, locked, lastProposed := false, 0, [], false, Origin;
      pmQcFinish, pmQcManual, pmWaitPropose := None, None, true;
      propBlk, ownListen, recvListen := map[], false, false;
      calls := if env.id == 0 then 1 else 0;
      qcWaiting, certified, own, committed := map[], {Origin}, 0, {Origin};
      taken, proposed, dropped := multiset{}, multiset{}, multiset{};
      new;
      EveryBatchIsAccountedFor(env, []);
    }

    /** pm.reject() on one of the two promises of qc_waiting the object holds. */
    method RejectPm(pm: Option<Blk>)
      modifies this`qcWaiting, this`pmQcFinish, this`pmQcManual, this`dropped
      ensures Pms() == Reject(old(Pms()), pm)
    {
      if pm.None? || pm.value !in qcWaiting { return; }
      match qcWaiting[pm.value]
      case Rejected =>
      case Waiting(cbs) =>
        dropped := dropped + Beats(cbs);
        qcWaiting := qcWaiting[pm.value := Rejected];
        var finish, manual := pmQcFinish, pmQcManual;
        if finish == pm { pmQcFinish := None; }
        if manual == pm { pmQcManual := None; }
    }

    /** async_qc_finish(b).then(cb), for a block that has no certificate; `pm` is the promise. */
    method WaitForQc(b: Blk, cb: Callback) returns (pm: Option<Blk>)
      modifies this`qcWaiting, this`dropped
      ensures Pms() == Attach(old(Pms()), b, cb)
      ensures pm == Live(old(Pms()), b)
    {
      if b !in qcWaiting {
        qcWaiting := qcWaiting[b := Waiting([])];
      }
      match qcWaiting[b]
      case Rejected =>
        dropped := dropped + Beats([cb]);
        pm := None;
      case Waiting(cbs) =>
        qcWaiting := qcWaiting[b := Waiting(cbs + [cb])];
        assert [] + [cb] == [cb];
        pm := Some(b);
    }

    method HoldUntilQc(b: Blk, batch: Batch)
      modifies this`qcWaiting, this`pmQcFinish, this`dropped
      ensures Pms() == HoldBeat(old(Pms()), b, batch)
    {
      pmQcFinish := WaitForQc(b, BeatCb(batch));
    }

    /** The last block is certified, or its certificate is waited for. */
    method ResolveOrHold(batch: Batch) returns (ready: Option<Batch>)
      modifies this`locked, this`qcWaiting, this`pmQcFinish, this`dropped
      ensures var s := old(View());
              (View(), ready) == if s.lastProposed in s.certified then (s, Some(batch))
                                 else (s.(pms := HoldBeat(s.pms, s.lastProposed, batch), locked := true), None)
    {
      hide HoldBeat;
      if lastProposed in certified { return Some(batch); }
      HoldUntilQc(lastProposed, batch);
      locked := true;
      ready := None;
    }

    method ProposerScheduleNext() returns (ready: Option<Batch>)
      modifies this`pendingBeats, this`locked, this`qcWaiting, this`pmQcFinish, this`pmQcManual, this`dropped
      ensures (View(), ready) == ScheduleNext(old(View()))
    {
      hide Reject, HoldBeat;
      ready := None;
      if pendingBeats != [] && !locked {
        var pm := pendingBeats[0];
        pendingBeats := pendingBeats[1..];
        RejectPm(pmQcFinish);
        ready := ResolveOrHold(pm);
      }
    }

    method RejectBothPms()
      modifies this`qcWaiting, this`pmQcFinish, this`pmQcManual, this`dropped
      ensures Pms() == RejectBoth(old(Pms()))
    {
      hide Reject;
      RejectPm(pmQcFinish);
      RejectPm(pmQcManual);
    }

    /** pm_qc_finish.reject(), pm_wait_propose.reject() and pm_qc_manual.reject(). */
    method RejectAll()
      modifies this`qcWaiting, this`pmQcFinish, this`pmQcManual, this`dropped, this`pmWaitPropose
      ensures View() == old(View()).(pms := RejectBoth(old(Pms())), armed := false)
    {
      hide RejectBoth;
      RejectBothPms();
      pmWaitPropose := false;
    }

    /** What stop_rotate does after rejecting its promises, proposer_update_last_proposed included. */
    method Restart()
      modifies this`rotating, this`locked, this`lastProposed, this`pmWaitPropose
      ensures View() == old(View()).(rotating := false, locked := false, lastProposed := Origin, armed := true)
    {
      rotating := false;
      locked := false;
      lastProposed := Origin;
      pmWaitPropose := true;
    }

    method StopRotate()
      modifies this`qcWaiting, this`pmQcFinish, this`pmQcManual, this`dropped, this`rotating, this`locked,
               this`lastProposed, this`pmWaitPropose, this`calls
      ensures View() == RoundRobin.StopRotate(env, old(View()))
    {
      hide RejectBoth;
      RejectAll();
      Restart();
      if proposer == env.id {
        calls := calls + 1;
      }
    }

    /** What rotate does before it turns to the next proposer. */
    method StartRotation()
      modifies this`rotating, this`propBlk, this`ownListen, this`recvListen
      ensures View() == old(View()).(rotating := true, propBlk := map[], ownListen := true, recvListen := true)
    {
      ownListen := true;
      recvListen := true;
      propBlk := map[];
      rotating := true;
    }

    method Rotate()
      requires env.n > 0
      modifies this`qcWaiting, this`pmQcFinish, this`pmQcManual, this`dropped, this`rotating, this`proposer,
               this`pmWaitPropose, this`propBlk, this`ownListen, this`recvListen
      ensures View() == RoundRobin.Rotate(env, old(View()))
    {
      hide RejectBoth;
      StartRotation();
      proposer := (proposer + 1) % env.n;
      RejectAll();
    }

    method Commit(b: Blk)
      modifies this
      ensures View() == RoundRobin.OnConsensus(env, old(View()), b)
    {
      if b in committed { return; }
      committed := committed + {b};
      if proposer in propBlk && propBlk[proposer] == b {
        StopRotate();
      }
    }

    /** The callbacks of reg_receive_proposal and of reg_proposal. */
    method SeeReceived(who: ReplicaId, b: Blk)
      modifies this`propBlk, this`recvListen
      ensures View() == NoteReceived(old(View()), who, b)
    {
      if recvListen {
        if who !in propBlk { propBlk := propBlk[who := b]; }
        recvListen := rotating;
      }
    }

    method SeeOwn(b: Blk)
      modifies this`propBlk, this`ownListen
      ensures View() == NoteOwn(env, old(View()), b)
    {
      if ownListen {
        if env.id !in propBlk { propBlk := propBlk[env.id := b]; }
        ownListen := rotating;
      }
    }

    method Unlock(b: Blk)
      modifies this`locked, this`lastProposed
      ensures View() == old(View()).(lastProposed := b, locked := false)
    {
      lastProposed := b;
      locked := false;
    }

    /** The callback of proposer_update_last_proposed.  A block just made has no certificate, so no beat
        is resolved here. */
    method UpdateLastProposed(b: Blk)
      modifies this`pendingBeats, this`locked, this`qcWaiting, this`pmQcFinish, this`pmQcManual, this`dropped,
               this`lastProposed
      ensures View() == NewLast(old(View()), b)
    {
      hide ScheduleNext;
      if pmWaitPropose {
        Unlock(b);
        var ready := ProposerScheduleNext();
      }
    }

    /** The commit loop of `update`, as far as the pacemaker is told of it. */
    method CommitBlocks(blks: seq<Blk>)
      modifies this
      ensures View() == CommitAll(env, old(View()), blks)
    {
      hide RoundRobin.OnConsensus;
      for i := 0 to |blks|
        invariant View() == CommitAll(env, old(View()), blks[..i])
      {
        assert blks[..i + 1][..i] == blks[..i];
        Commit(blks[i]);
      }
      assert blks[..|blks|] == blks;
    }

    method MakeBlock(batch: Option<Batch>) returns (b: Blk)
      modifies this`own, this`proposed
      ensures View() == NowProposed(old(View()), batch)
      ensures b == Own(old(own))
    {
      b := Own(own);
      own := own + 1;
      proposed := proposed + Bag(batch);
    }

    method OnPropose(batch: Option<Batch>) returns (b: Blk)
      modifies this
      ensures View() == RoundRobin.OnPropose(env, old(View()), batch)
      ensures b == Own(old(own))
    {
      hide NowProposed, CommitAll, NoteReceived, NoteOwn, NewLast;
      var commits := env.commits(own);
      b := MakeBlock(batch);
      CommitBlocks(commits);
      SeeReceived(env.id, b);
      SeeOwn(b);
      UpdateLastProposed(b);
    }

    method DoNewConsensus(x: nat)
      modifies this
      ensures View() == NewConsensus(env, old(View()), x)
    {
      hide RoundRobin.OnPropose, Reject, HoldChain;
      var blk := OnPropose(None);
      RejectPm(pmQcManual);
      ContinueAtQc(blk, x);
    }

    method ContinueAtQc(b: Blk, x: nat)
      modifies this`qcWaiting, this`pmQcManual, this`dropped
      ensures Pms() == HoldChain(old(Pms()), b, x)
    {
      pmQcManual := WaitForQc(b, ChainCb(x));
    }

    /** The callback that the command handler attaches to a beat. */
    method BeatDone(batch: Batch)
      modifies this
      ensures View() == FireBeat(env, old(View()), batch)
    {
      hide RoundRobin.OnPropose;
      if proposer == env.id {
        var blk := OnPropose(Some(batch));
      } else {
        dropped := dropped + multiset{batch};
      }
    }

    method RunCallback(cb: Callback)
      modifies this
      ensures View() == FireOne(env, old(View()), cb)
    {
      hide RoundRobin.OnPropose, NewConsensus, FireBeat;
      match cb
      case BeatCb(batch) => BeatDone(batch);
      case ChainCb(x) =>
        if x < LeaderChain.Lag(env.build) {
          DoNewConsensus(x + 1);
        }
    }

    method RunCallbacks(cbs: seq<Callback>)
      modifies this
      ensures View() == Fire(env, old(View()), cbs)
    {
      hide FireOne;
      for i := 0 to |cbs|
        invariant View() == Fire(env, old(View()), cbs[..i])
      {
        assert cbs[..i + 1][..i] == cbs[..i];
        RunCallback(cbs[i]);
      }
      assert cbs[..|cbs|] == cbs;
    }

    /** The entry of b leaves qc_waiting. */
    method RemoveEntry(b: Blk)
      modifies this`qcWaiting, this`pmQcFinish, this`pmQcManual
      ensures Pms() == Remove(old(Pms()), b)
    {
      qcWaiting := qcWaiting - {b};
      if pmQcFinish == Some(b) { pmQcFinish := None; }
      if pmQcManual == Some(b) { pmQcManual := None; }
    }

    /** The callbacks to be run for b. */
    method SettleQc(b: Blk, byVotes: bool) returns (cbs: seq<Callback>)
      modifies this`certified, this`qcWaiting, this`pmQcFinish, this`pmQcManual
      ensures (View(), cbs) == Settled(old(View()), b, byVotes)
    {
      hide Remove;
      cbs := [];
      if b in qcWaiting {
        cbs := if qcWaiting[b].Waiting? then qcWaiting[b].cbs else [];
        RemoveEntry(b);
      }
      if byVotes {
        certified := certified + {b};
      }
    }

    method FinishQc(b: Blk, byVotes: bool)
      modifies this
      ensures View() == QcFinish(env, old(View()), b, byVotes)
    {
      hide Fire, Settled;
      var cbs := SettleQc(b, byVotes);
      RunCallbacks(cbs);
    }

    /** A beat whose promise is resolved inside proposer_schedule_next.  The callback of an older beat is
        attached already and runs before `locked` is set; that of the new one is attached afterwards. */
    method ResolveAtOnce(batch: Batch, older: bool)
      modifies this
      ensures View() == if older then FireBeat(env, old(View()), batch).(locked := true)
                        else FireBeat(env, old(View()).(locked := true), batch)
    {
      hide FireBeat;
      if older {
        BeatDone(batch);
        locked := true;
      } else {
        locked := true;
        BeatDone(batch);
      }
    }

    /** beat, with the callback attached to its result. */
    method Beat(batch: Batch)
      modifies this
      ensures View() == RoundRobin.Beat(env, old(View()), batch)
    {
      hide FireBeat, ScheduleNext;
      if !rotating && proposer == env.id {
        var older := pendingBeats != [];
        pendingBeats := pendingBeats + [batch];
        var ready := ProposerScheduleNext();
        if ready.Some? {
          ResolveAtOnce(ready.value, older);
        }
      } else {
        BeatDone(batch);
      }
    }

    method CountTaken(batch: Batch)
      modifies this`taken
      ensures View() == old(View()).(taken := old(taken) + multiset{batch})
    {
      taken := taken + multiset{batch};
    }

    method TakeCall()
      requires calls > 0
      modifies this`calls
      ensures View() == old(View()).(calls := old(calls) - 1)
    {
      calls := calls - 1;
    }

    // ---- the events ----

    /** What the event has done: exactly the batches of Taking, Proposing and Lost are taken, proposed and
        forgotten, and every other one is queued or held; so many blocks are made; and it is the next
        replica's turn exactly after `rotate`. */
    ghost predicate Moved(s: Pacer, e: Event)
      requires env.n > 0
      reads this
    {
      && own == s.own + |Proposing(env, s, e)| + Reproposed(env, s, e)
      && proposer == (if Rotates(s, e) then (s.proposer + 1) % env.n else s.proposer)
      && taken == s.taken + Taking(env, s, e)
      && proposed == s.proposed + Proposing(env, s, e)
      && dropped == s.pms.dropped + Lost(env, s, e)
      && taken == multiset(pendingBeats) + Bag(Held(Pms())) + proposed + dropped
    }

    /** A full batch in the command handler: nothing is taken for another proposer. */
    method TakeBatch(batch: Batch)
      requires Valid()
      modifies this
      ensures Valid() && View() == Step(env, old(View()), Take(batch))
      ensures Moved(old(View()), Take(batch))
    {
      hide Good, RoundRobin.Beat, QcFinish, RoundRobin.OnConsensus, NoteReceived, RoundRobin.Rotate, NewConsensus;
      hide Taking, Proposing, Lost, Held, Reproposed;
      EventTurns(env, View(), Take(batch));
      if proposer == env.id {
        CountTaken(batch);
        Beat(batch);
      }
    }

    /** on_qc_finish: the votes of b are complete, or a proposal cites it. */
    method OnQcFinish(b: Blk, byVotes: bool)
      requires Valid() && Known(own, b)
      modifies this
      ensures Valid() && View() == Step(env, old(View()), Finish(b, byVotes))
      ensures Moved(old(View()), Finish(b, byVotes))
    {
      hide Good, RoundRobin.Beat, QcFinish, RoundRobin.OnConsensus, NoteReceived, RoundRobin.Rotate, NewConsensus;
      hide Taking, Proposing, Lost, Held, Reproposed;
      EventTurns(env, View(), Finish(b, byVotes));
      FinishQc(b, byVotes);
    }

    /** on_consensus, when another proposal has committed b. */
    method OnConsensus(b: Blk)
      requires Valid()
      modifies this
      ensures Valid() && View() == Step(env, old(View()), Consensus(b))
      ensures Moved(old(View()), Consensus(b))
      ensures rotating <==>
                old(rotating) && (b in old(committed) || !(proposer in old(propBlk) && old(propBlk)[proposer] == b))
      ensures calls == old(calls) + if old(rotating) && !rotating && proposer == env.id then 1 else 0
      ensures committed == old(committed) + {b}
      ensures old(rotating) && !rotating ==> !locked && lastProposed == Origin && pmWaitPropose
    {
      hide Good, RoundRobin.Beat, QcFinish, RoundRobin.OnConsensus, NoteReceived, RoundRobin.Rotate, NewConsensus;
      hide Taking, Proposing, Lost, Held, Reproposed;
      EventTurns(env, View(), Consensus(b));
      FieldsTurn(env, View(), Consensus(b));
      Commit(b);
    }

    /** The callback of reg_receive_proposal, for a proposal of somebody else. */
    method OnReceiveProposal(who: ReplicaId, b: Blk)
      requires Valid()
      modifies this
      ensures Valid() && View() == Step(env, old(View()), Receive(who, b))
      ensures Moved(old(View()), Receive(who, b))
      ensures propBlk == if old(recvListen) && who !in old(propBlk) then old(propBlk)[who := b] else old(propBlk)
      ensures recvListen == (old(recvListen) && rotating)
    {
      hide Good, RoundRobin.Beat, QcFinish, RoundRobin.OnConsensus, NoteReceived, RoundRobin.Rotate, NewConsensus;
      hide Taking, Proposing, Lost, Held, Reproposed;
      EventTurns(env, View(), Receive(who, b));
      FieldsTurn(env, View(), Receive(who, b));
      SeeReceived(who, b);
    }

    /** impeach. */
    method OnImpeach()
      requires Valid()
      modifies this
      ensures Valid() && View() == Step(env, old(View()), Impeach)
      ensures Moved(old(View()), Impeach)
      ensures rotating && proposer == if old(rotating) then old(proposer) else (old(proposer) + 1) % env.n
      ensures propBlk == if old(rotating) then old(propBlk) else map[]
    {
      hide Good, RoundRobin.Beat, QcFinish, RoundRobin.OnConsensus, NoteReceived, RoundRobin.Rotate, NewConsensus;
      hide Taking, Proposing, Lost, Held, Reproposed;
      EventTurns(env, View(), Impeach);
      FieldsTurn(env, View(), Impeach);
      if rotating { return; }
      Rotate();
    }

    /** on_exp_timeout. */
    method OnExpTimeout()
      requires Valid()
      modifies this
      ensures Valid() && View() == Step(env, old(View()), ExpTimeout)
      ensures Moved(old(View()), ExpTimeout)
      ensures proposer == old(proposer) && own == old(own) + if proposer == env.id then 1 else 0
    {
      hide Good, RoundRobin.Beat, QcFinish, RoundRobin.OnConsensus, NoteReceived, RoundRobin.Rotate, NewConsensus;
      hide Taking, Proposing, Lost, Held, Reproposed;
      EventTurns(env, View(), ExpTimeout);
      FieldsTurn(env, View(), ExpTimeout);
      if proposer == env.id {
        DoNewConsensus(0);
      }
    }

    /** The timer that on_exp_timeout has set. */
    method OnPropTimeout()
      requires Valid()
      modifies this
      ensures Valid() && View() == Step(env, old(View()), PropTimeout)
      ensures Moved(old(View()), PropTimeout)
      ensures rotating && proposer == (old(proposer) + 1) % env.n && propBlk == map[]
    {
      hide Good, RoundRobin.Beat, QcFinish, RoundRobin.OnConsensus, NoteReceived, RoundRobin.Rotate, NewConsensus;
      hide Taking, Proposing, Lost, Held, Reproposed;
      EventTurns(env, View(), PropTimeout);
      FieldsTurn(env, View(), PropTimeout);
      Rotate();
    }

    /** The call that stop_rotate scheduled: `waiting` says that there are undecided commands. */
    method OnScheduledCall(waiting: bool)
      requires Valid()
      modifies this
      ensures Valid() && View() == Step(env, old(View()), RunCall(waiting))
      ensures Moved(old(View()), RunCall(waiting))
      ensures own == old(own) + if waiting && old(calls) > 0 then 1 else 0
    {
      hide Good, RoundRobin.Beat, QcFinish, RoundRobin.OnConsensus, NoteReceived, RoundRobin.Rotate, NewConsensus;
      hide Step, Taking, Proposing, Lost, Held, Reproposed, Rotates;
      ScheduledCallIs(env, View(), waiting);
      EventTurns(env, View(), RunCall(waiting));
      FieldsTurn(env, View(), RunCall(waiting));
      if calls > 0 {
        TakeCall();
        if waiting {
          DoNewConsensus(0);
        }
      }
    }
  }
}
