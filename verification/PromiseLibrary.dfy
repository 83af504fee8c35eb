/** The promises themselves, as mutable objects in a store, and what their use comes to. */
module PromiseLibrary {
  import opened Core
  import opened Promises
  import opened PromiseSteps
  import opened PromiseEffects

  predicate Settled(s: Store, n: Id) {
    n < |s.pms| && !s.pms[n].state.Pending?
  }

  class PromiseStore {
    const fn: Pure   // the pure callbacks
    var pms: seq<Promise>
    var alls: seq<All>
    ghost var trace: seq<(Id, nat)>
    ghost var touched: set<Id>
    ghost var asked: seq<Request>
    ghost var done: seq<(Callback, Value)>

    ghost function View(): Store
      reads this
    {
      Store(pms, alls, trace, touched, asked, done)
    }

    /** resolve (`up`) or reject, with the triggering of the callbacks. */
    method Settle(id: Id, up: bool, v: Value, ghost running: set<Id>, ghost due: set<nat>)
      requires Kept(View(), running, due) && MaySettle(View(), id, up, v, due) && Obeyed(fn, View(), running)
      modifies this
      ensures Kept(View(), running, {}) && Later(old(View()), View()) && Still(old(View()), View())
      ensures Obeyed(fn, View(), running)
      ensures id < |pms| && pms[id].state == if old(id < |pms| && !pms[id].state.Pending?) then old(pms[id].state)
                                            else if up then Fulfilled(v) else Rejected(v)
      ensures Request(id, up, v) in asked
      ensures id !in running ==> ServedUpTo(fn, View(), id, |pms[id].cbs|)
      ensures Work(pms) <= old(Work(pms))
      ensures due != {} && id < |old(pms)| && old(pms)[id].cbs == [] ==>
                pms[id].cbs == [] && |alls| == |old(alls)| && touched == old(touched)
      decreases Work(pms), 0
    {
      hide Kept, MaySettle, ServedUpTo, Work, Obeyed;
      ghost var s := View();
      ghost var r := Request(id, up, v);
      IdInRange(s, id, up, v, due);
      asked := asked + [r];
      assert asked[|s.asked|] == r;
      if !pms[id].state.Pending? {
        AlreadySettled(s, id, up, v, running, due);
        KeptNotes(s, View(), running, {});
        AskedAgain(fn, s, r, running);
        if id !in running {
          WasServed(fn, View(), id, running);
        }
        return;
      }
      MarkKeeps(s, id, up, v, running, due);
      NotRunning(s, id, running, due);
      NoneRun(s, id, running, due);
      MarkWork(s, id, if up then Fulfilled(v) else Rejected(v), due != {});
      pms := pms[id := pms[id].(state := if up then Fulfilled(v) else Rejected(v))];
      touched := if due != {} then touched else touched + {id};
      ghost var s' := View();
      ghost var marked := Mark(s, id, if up then Fulfilled(v) else Rejected(v), due != {});
      KeptNotes(marked, s', running + {id}, {});
      assert Later(s, s');
      LaterIsOnward(s, s');
      AskedFirst(fn, s, s', r, running);
      Trigger(id, running + {id});
      assert running + {id} - {id} == running;
      LaterTransitive(s, s', View());
      assert asked[|s.asked|] == r;
      WasServed(fn, View(), id, running);
    }

    /** The loop over the callbacks. */
    method Trigger(id: Id, ghost running: set<Id>)
      requires Kept(View(), running, {}) && Obeyed(fn, View(), running)
      requires id in running && id < |pms| && pms[id].next == 0
      modifies this
      ensures Kept(View(), running - {id}, {}) && Later(old(View()), View())
      ensures Obeyed(fn, View(), running - {id})
      ensures id < |pms| && ServedUpTo(fn, View(), id, |pms[id].cbs|)
      ensures |old(pms)| <= |pms|
      ensures forall p :: 0 <= p < |old(pms)| && p != id && !old(pms)[p].state.Pending? ==> pms[p] == old(pms)[p]
      ensures Work(pms) <= old(Work(pms))
      ensures id < |old(pms)| && old(pms)[id].cbs == [] ==> |alls| == |old(alls)| && touched == old(touched)
      decreases Work(pms), 5
    {
      hide Kept, Effect, Work, Obeyed;
      ghost var s := View();
      InRange(s, id, running);
      while pms[id].next < |pms[id].cbs|
        invariant Kept(View(), running, {}) && Later(s, View()) && Work(pms) <= Work(s.pms)
        invariant Obeyed(fn, View(), running)
        invariant id < |s.pms| <= |pms| && pms[id].next <= |pms[id].cbs| && !pms[id].state.Pending?
        invariant ServedUpTo(fn, View(), id, pms[id].next)
        invariant forall p :: 0 <= p < |s.pms| && p != id && !s.pms[p].state.Pending? ==> pms[p] == s.pms[p]
        invariant s.pms[id].cbs == [] ==> |alls| == |s.alls| && touched == s.touched
        decreases |pms[id].cbs| - pms[id].next
      {
        ghost var s' := View();
        RunNext(id, running);
        LaterTransitive(s, s', View());
        OneMoreServed(fn, s', View(), id, s'.pms[id].next);
      }
      assert running - {id} + {id} == running;
      DrainedKeeps(View(), id, running - {id});
      DrainedObeys(fn, View(), id, running);
    }

    /** One callback of a promise that is being triggered. */
    method RunNext(id: Id, ghost running: set<Id>)
      requires Kept(View(), running, {}) && Obeyed(fn, View(), running) && id in running && id < |pms|
      requires pms[id].next < |pms[id].cbs| && !pms[id].state.Pending?
      modifies this
      ensures Kept(View(), running, {}) && Ran(old(View()), View(), id)
      ensures Obeyed(fn, View(), running)
      ensures Effect(fn, View(), Active(old(pms[id]), old(pms[id].next)), old(pms[id].state.v))
      ensures Work(pms) <= old(Work(pms))
      decreases Work(pms), 4
    {
      hide Kept, Ran, Effect, Work, Obeyed;
      if !pms[id].cbs[pms[id].next].ful.Slot? {
        RunUsers(id, running);
      } else if pms[id].state.Fulfilled? {
        RunStore(id, running);
      } else {
        RunReject(id, running);
      }
    }

    method RunUsers(id: Id, ghost running: set<Id>)
      requires Kept(View(), running, {}) && Obeyed(fn, View(), running) && id in running && id < |pms|
      requires pms[id].next < |pms[id].cbs| && !pms[id].state.Pending? && !Turn(View(), id).ful.Slot?
      modifies this
      ensures Kept(View(), running, {}) && Ran(old(View()), View(), id)
      ensures Obeyed(fn, View(), running)
      ensures Effect(fn, View(), Active(old(pms[id]), old(pms[id].next)), old(pms[id].state.v))
      ensures Work(pms) <= old(Work(pms))
      decreases Work(pms), 3
    {
      hide Kept, CallbackOk, Work, Weight, Effect, Obeyed;
      ghost var s := View();
      AdvanceKeeps(s, id, running);
      AdvanceWork(s, id);
      var pm := pms[id];
      Step(id);
      StepObeys(fn, s, id, running);
      var pair := pm.cbs[pm.next];
      RunCallback(if pm.state.Fulfilled? then pair.ful else pair.rej, pm.state.v, running);
      RanFrom(s, View(), id);
    }

    method RunStore(id: Id, ghost running: set<Id>)
      requires Kept(View(), running, {}) && Obeyed(fn, View(), running) && id in running && id < |pms|
      requires pms[id].next < |pms[id].cbs| && pms[id].state.Fulfilled? && Turn(View(), id).ful.Slot?
      modifies this
      ensures Kept(View(), running, {}) && Ran(old(View()), View(), id)
      ensures Obeyed(fn, View(), running)
      ensures Effect(fn, View(), Active(old(pms[id]), old(pms[id].next)), old(pms[id].state.v))
      ensures Work(pms) <= old(Work(pms))
      decreases Work(pms), 3
    {
      hide Kept, MaySettle, Work, Weight, Obeyed;
      ghost var s := View();
      AdvanceStored(s, id, running);
      AdvanceWork(s, id);
      var pm := pms[id];
      Step(id);
      StepObeys(fn, s, id, running);
      var slot := pm.cbs[pm.next].ful;
      RunSlot(slot.a, slot.idx, pm.state.v, running);
      LaterTransitive(s, StoreResult(Advance(s, id), slot.a, slot.idx, pm.state.v), View());
    }

    method RunReject(id: Id, ghost running: set<Id>)
      requires Kept(View(), running, {}) && Obeyed(fn, View(), running) && id in running && id < |pms|
      requires pms[id].next < |pms[id].cbs| && pms[id].state.Rejected? && Turn(View(), id).ful.Slot?
      modifies this
      ensures Kept(View(), running, {}) && Ran(old(View()), View(), id)
      ensures Obeyed(fn, View(), running)
      ensures Effect(fn, View(), Active(old(pms[id]), old(pms[id].next)), old(pms[id].state.v))
      ensures Work(pms) <= old(Work(pms))
      decreases Work(pms), 3
    {
      hide Kept, MaySettle, Work, Weight, Obeyed;
      ghost var s := View();
      AdvanceRejected(s, id, running);
      AdvanceWork(s, id);
      var pm := pms[id];
      Step(id);
      StepObeys(fn, s, id, running);
      var pair := pm.cbs[pm.next];
      Settle(pair.rej.npm, false, pm.state.v, running, {pair.ful.a});
      RanFrom(s, View(), id);
    }

    /** The loop variable moves on. */
    method Step(id: Id)
      requires id < |pms|
      modifies this`pms, this`trace
      ensures View() == Advance(old(View()), id)
    {
      trace := trace + [(id, pms[id].next)];
      pms := pms[id := pms[id].(next := pms[id].next + 1)];
    }

    /** The callback that `all` attaches to one input. */
    method RunSlot(a: nat, i: nat, v: Value, ghost running: set<Id>)
      requires a < |alls| && i < |alls[a].links| == |alls[a].results| && alls[a].left > 0
      requires var s := StoreResult(View(), a, i, v);
               && Kept(s, running, if s.alls[a].left == 0 then {a} else {})
               && (s.alls[a].left == 0 ==> MaySettle(s, s.alls[a].npm, true, List(s.alls[a].results), {a}))
      requires Obeyed(fn, View(), running)
      modifies this
      ensures Kept(View(), running, {}) && Obeyed(fn, View(), running)
      ensures var s := StoreResult(old(View()), a, i, v); Later(s, View()) && Still(s, View())
      ensures Work(pms) <= old(Work(pms))
      ensures var npm := old(alls)[a].npm; npm < |old(pms)| && old(pms)[npm].cbs == [] ==>
                npm < |pms| && pms[npm].cbs == [] && |alls| == |old(alls)| && touched == old(touched)
      decreases Work(pms), 1
    {
      hide Kept, MaySettle, Work, Obeyed;
      StoreObeys(fn, View(), a, i, v, running);
      var all := alls[a];
      alls := alls[a := all.(results := all.results[i := v], links := all.links[i := Stored], left := all.left - 1)];
      if alls[a].left == 0 {
        Settle(all.npm, true, List(alls[a].results), running, {a});
      }
    }

    /** Any other callback. */
    method RunCallback(cb: Callback, v: Value, ghost running: set<Id>)
      requires Kept(View(), running, {}) && Obeyed(fn, View(), running) && CallbackOk(|pms|, cb)
      modifies this
      ensures Kept(View(), running, {}) && Later(old(View()), View()) && Still(old(View()), View())
      ensures Obeyed(fn, View(), running)
      ensures Effect(fn, View(), cb, v) && (cb, v) in done
      ensures cb.Forward? && old(pms)[cb.npm].state.Pending? ==>
                cb.npm < |pms| && pms[cb.npm].state == if cb.up then Fulfilled(v) else Rejected(v)
      ensures cb.Call? && cb.h.acts == [] && cb.h.ret.Result? && old(pms)[cb.npm].state.Pending? ==>
                && cb.npm < |pms|
                && pms[cb.npm].state == var r := fn(cb.h.ret.f, v); if cb.up then Fulfilled(r) else Rejected(r)
      ensures Work(pms) <= old(Work(pms)) + Weight(cb)
      decreases Work(pms) + Weight(cb), 2
    {
      hide Kept, Work, Obeyed, Served, HandlerWork, Fits;
      ghost var s := View();
      match cb {
        case Forward(npm, up) => Settle(npm, up, v, running, {});
        case Call(h, env, npm, up) => RunHandler(h, env, npm, up, v, running);
      }
      ghost var s1 := View();
      DoneObeys(fn, s1, cb, v, running);
      done := done + [(cb, v)];
      KeptNotes(s1, View(), running, {});
      LaterTransitive(s, s1, View());
    }

    /** The wrapper around a user's callback: run it, and settle the dependent promise with the result, or
        make it follow the promise returned. */
    method RunHandler(h: Handler, env: seq<Id>, npm: Id, up: bool, v: Value, ghost running: set<Id>)
      requires Kept(View(), running, {}) && Obeyed(fn, View(), running) && InScope(|pms|, env) && Fits(h, |env|)
      requires npm < |pms|
      modifies this
      ensures Kept(View(), running, {}) && Later(old(View()), View()) && Still(old(View()), View())
      ensures Obeyed(fn, View(), running)
      ensures exists env' :: env <= env' && Served(fn, View(), h, env', |env|, npm, up, v)
      ensures h.acts == [] && h.ret.Result? && old(pms)[npm].state.Pending? ==>
                npm < |pms| && pms[npm].state == var w := fn(h.ret.f, v); if up then Fulfilled(w) else Rejected(w)
      ensures Work(pms) <= old(Work(pms)) + HandlerWork(h)
      decreases Work(pms) + HandlerWork(h), 1
    {
      hide Kept, Work, ActsWork, ActFits, ManyMake, CodeDone, Obeyed, Follows;
      ghost var s := View();
      var env' := RunActs(h.acts, env, running);
      ghost var s1 := View();
      match h.ret {
        case Nothing => Settle(npm, up, Unit, running, {});
        case Result(f) => Settle(npm, up, fn(f, v), running, {});
        case Follow(p) => ChainTo(env'[p], npm, running);
      }
      LaterTransitive(s, s1, View());
      LaterIsOnward(s1, View());
      CodeStays(s1, View(), h.acts, env', env', |env|, |h.acts|);
      assert Served(fn, View(), h, env', |env|, npm, up, v);
    }

    /** What the user's code does, as far as promises are concerned; `env'` is what is in scope after. */
    method RunActs(acts: seq<Act>, env: seq<Id>, ghost running: set<Id>) returns (env': seq<Id>)
      requires Kept(View(), running, {}) && Obeyed(fn, View(), running) && InScope(|pms|, env) && ActsFit(acts, |env|)
      modifies this
      ensures Kept(View(), running, {}) && Later(old(View()), View()) && Still(old(View()), View())
      ensures Obeyed(fn, View(), running)
      ensures InScope(|pms|, env') && env <= env' && |env'| == |env| + ManyMake(acts)
      ensures CodeDone(View(), acts, env', |env|, |acts|)
      ensures acts == [] ==> View() == old(View())
      ensures Work(pms) <= old(Work(pms)) + ActsWork(acts)
      decreases Work(pms) + ActsWork(acts), 2
    {
      hide Kept, Work, ActFits, ActWork, Makes, ActDone, Obeyed;
      ghost var s := View();
      env' := env;
      for k := 0 to |acts|
        invariant Kept(View(), running, {}) && Later(s, View()) && Still(s, View()) && Obeyed(fn, View(), running)
        invariant InScope(|pms|, env') && ActsFit(acts[k..], |env'|)
        invariant env <= env' && |env'| + ManyMake(acts[k..]) == |env| + ManyMake(acts)
        invariant |env'| == ScopeAt(acts, |env|, k) && CodeDone(View(), acts, env', |env|, k)
        invariant Work(pms) + ActsWork(acts[k..]) <= Work(s.pms) + ActsWork(acts)
        invariant acts == [] ==> View() == s
      {
        assert acts[k..] == [acts[k]] + acts[k + 1..];
        ghost var s', before := View(), env';
        env' := RunAct(acts[k], env', running);
        LaterTransitive(s, s', View());
        LaterIsOnward(s', View());
        CodeStays(s', View(), acts, before, env', |env|, k);
      }
    }

    method RunAct(act: Act, env: seq<Id>, ghost running: set<Id>) returns (env': seq<Id>)
      requires Kept(View(), running, {}) && Obeyed(fn, View(), running) && InScope(|pms|, env) && ActFits(act, |env|)
      modifies this
      ensures Kept(View(), running, {}) && Later(old(View()), View()) && Still(old(View()), View())
      ensures Obeyed(fn, View(), running)
      ensures InScope(|pms|, env') && env <= env' && |env'| == |env| + Makes(act)
      ensures ActDone(View(), act, env', |env|)
      ensures Work(pms) <= old(Work(pms)) + ActWork(act)
      decreases Work(pms) + ActWork(act), 1
    {
      hide Kept, Work, HandlerWork, Fits, Obeyed, Registered;
      match act
      case Settle(p, up, v) =>
        Settle(env[p], up, v, running, {});
        env' := env;
      case Make =>
        var npm := Make(running);
        env' := env + [npm];
      case Register(p, onFul, onRej) =>
        var npm := Register(env[p], onFul, onRej, env, running);
        env' := env + [npm];
        assert env'[..|env|] == env;
      case Await(ps) =>
        var npm := Await(Chosen(env, ps), running);
        env' := env + [npm];
        assert Chosen(env', ps) == Chosen(env, ps);
    }

    /** The wrapper around a callback that returned the promise p: npm follows p. */
    method ChainTo(p: Id, npm: Id, ghost running: set<Id>)
      requires Kept(View(), running, {}) && Obeyed(fn, View(), running) && p < |pms| && npm < |pms|
      modifies this
      ensures Kept(View(), running, {}) && Later(old(View()), View()) && Still(old(View()), View())
      ensures Obeyed(fn, View(), running)
      ensures old(pms)[p].state.Pending? ==>
                var pm := old(pms)[p];
                pms == old(pms)[p := pm.(cbs := pm.cbs + [Pair(Forward(npm, true), Forward(npm, false))])]
      ensures Follows(View(), p, npm)
      ensures old(pms)[npm].state.Pending? && !old(pms)[p].state.Pending? ==> pms[npm].state == old(pms)[p].state
      ensures Work(pms) <= old(Work(pms)) + 2
      decreases Work(pms) + 2, 1
    {
      hide Kept, Work, Obeyed, ServedUpTo;
      match pms[p].state
      case Fulfilled(w) => Settle(npm, true, w, running, {});
      case Rejected(w) => Settle(npm, false, w, running, {});
      case Pending =>
        var pair := Pair(Forward(npm, true), Forward(npm, false));
        AttachKeeps(View(), p, pair, running);
        NoneRun(View(), p, running, {});
        AttachWork(View(), p, pair);
        AttachObeys(fn, View(), p, pair, running);
        pms := pms[p := pms[p].(cbs := pms[p].cbs + [pair])];
        assert pms[p].cbs[|pms[p].cbs| - 1] == pair;
    }

    method Make(ghost running: set<Id>) returns (id: Id)
      requires Kept(View(), running, {}) && Obeyed(fn, View(), running)
      modifies this
      ensures Kept(View(), running, {}) && View() == NewPromise(old(View())) && id == |old(pms)|
      ensures Later(old(View()), View()) && Still(old(View()), View()) && Obeyed(fn, View(), running)
      ensures Work(pms) == old(Work(pms)) + 1
    {
      hide Kept, Work, Obeyed;
      NewObeys(fn, View(), running);
      NewKeeps(View(), running);
      NewWork(View());
      id := |pms|;
      pms := pms + [Promise(Pending, [], 0)];
    }

    /** `then` with one or two callbacks, and `fail`, inside of callbacks or not. */
    method Register(id: Id, onFul: Option<Handler>, onRej: Option<Handler>, env: seq<Id>, ghost running: set<Id>)
      returns (npm: Id)
      requires Kept(View(), running, {}) && Obeyed(fn, View(), running) && id < |pms| && InScope(|pms|, env)
      requires (onFul.Some? ==> Fits(onFul.value, |env|)) && (onRej.Some? ==> Fits(onRej.value, |env|))
      modifies this
      ensures Kept(View(), running, {}) && Later(old(View()), View()) && Still(old(View()), View())
      ensures Obeyed(fn, View(), running)
      ensures npm == |old(pms)| < |pms|
      ensures old(pms)[id].state.Pending? ==>
                pms == old(pms)[id := old(pms)[id].(cbs := old(pms)[id].cbs + [PairOf(onFul, onRej, env, npm)])]
                       + [Promise(Pending, [], 0)]
      ensures Registered(View(), id, PairOf(onFul, onRej, env, npm))
      ensures old(pms)[id].state.Fulfilled? ==>
                Effect(fn, View(), PairOf(onFul, onRej, env, npm).ful, old(pms)[id].state.v)
      ensures old(pms)[id].state.Rejected? ==>
                Effect(fn, View(), PairOf(onFul, onRej, env, npm).rej, old(pms)[id].state.v)
      ensures old(pms)[id].state.Fulfilled? && onFul.None? ==> pms[npm].state == old(pms)[id].state
      ensures old(pms)[id].state.Rejected? && onRej.None? ==> pms[npm].state == old(pms)[id].state
      ensures old(pms)[id].state.Fulfilled? && onFul.Some? && onFul.value.acts == [] && onFul.value.ret.Result? ==>
                pms[npm].state == Fulfilled(fn(onFul.value.ret.f, old(pms)[id].state.v))
      ensures old(pms)[id].state.Rejected? && onRej.Some? && onRej.value.acts == [] && onRej.value.ret.Result? ==>
                pms[npm].state == Rejected(fn(onRej.value.ret.f, old(pms)[id].state.v))
      ensures Work(pms) <= old(Work(pms)) + 1 + PairWeight(PairOf(onFul, onRej, env, 0))
      decreases Work(pms) + 2 + PairWeight(PairOf(onFul, onRej, env, 0)), 0
    {
      hide Kept, Work, HandlerWork, Fits, Effect, Obeyed;
      ghost var s := View();
      npm := Make(running);
      ghost var s1 := View();
      var pair := PairOf(onFul, onRej, env, npm);
      match pms[id].state
      case Pending =>
        AttachKeeps(s1, id, pair, running);
        NoneRun(s1, id, running, {});
        AttachWork(s1, id, pair);
        AttachObeys(fn, s1, id, pair, running);
        pms := pms[id := pms[id].(cbs := pms[id].cbs + [pair])];
        assert pms[id].cbs[|pms[id].cbs| - 1] == pair;
        LaterTransitive(s, s1, View());
      case Fulfilled(v) =>
        RunCallback(pair.ful, v, running);
        LaterTransitive(s, s1, View());
      case Rejected(v) =>
        RunCallback(pair.rej, v, running);
        LaterTransitive(s, s1, View());
    }

    /** `all`, inside of callbacks or not. */
    method Await(inputs: seq<Id>, ghost running: set<Id>) returns (npm: Id)
      requires Kept(View(), running, {}) && Obeyed(fn, View(), running) && inputs != [] && InScope(|pms|, inputs)
      modifies this
      ensures Kept(View(), running, {}) && Later(old(View()), View()) && Still(old(View()), View())
      ensures Obeyed(fn, View(), running)
      ensures npm == |old(pms)| < |pms| && npm !in touched
      ensures |alls| == |old(alls)| + 1 && alls[|old(alls)|].inputs == inputs && alls[|old(alls)|].npm == npm
      ensures Work(pms) <= old(Work(pms)) + 1 + 2 * |inputs|
      decreases Work(pms) + 2 + 2 * |inputs|, 0
    {
      hide Kept, Work, LaterBut, Obeyed;
      ghost var s := View();
      StartObeys(fn, s, inputs, running);
      AllStarts(s, inputs, running);
      NewWork(s);
      Untouched(s, running);
      npm := |pms|;
      var a := |alls|;
      alls := alls + [All(inputs, |pms|, |inputs|, seq(|inputs|, _ => Unit), seq(|inputs|, _ => Todo))];
      pms := pms + [Promise(Pending, [], 0)];
      assert View() == NewPromise(s).(alls := s.alls + [AllOn(s, inputs)]);
      StartedLater(s, inputs);
      for i := 0 to |inputs|
        invariant Kept(View(), running, {}) && LaterBut(s, View(), a) && Still(s, View())
        invariant Obeyed(fn, View(), running)
        invariant |alls| == a + 1 && alls[a].inputs == inputs && alls[a].npm == npm < |pms|
        invariant |alls[a].links| == |inputs| && Looking(alls[a], i)
        invariant pms[npm].cbs == [] && npm !in touched
        invariant Work(pms) <= Work(s.pms) + 1 + 2 * i
      {
        ghost var s' := View();
        LookAt(a, i, running);
        LaterButTransitive(s, s', View(), a);
      }
      AllLookedAt(s, View(), a);
    }

    /** One round of the loop of `all`. */
    method LookAt(a: nat, i: nat, ghost running: set<Id>)
      requires Kept(View(), running, {}) && Obeyed(fn, View(), running)
      requires a < |alls| && i < |alls[a].links| && Looking(alls[a], i)
      modifies this
      ensures Kept(View(), running, {}) && LaterBut(old(View()), View(), a) && Still(old(View()), View())
      ensures Obeyed(fn, View(), running)
      ensures a < |alls| && alls[a].inputs == old(alls)[a].inputs && alls[a].npm == old(alls)[a].npm
      ensures |alls[a].links| == |old(alls)[a].links| && Looking(alls[a], i + 1)
      ensures var all := old(alls)[a]; all.npm < |old(pms)| && i < |all.inputs| && all.inputs[i] != all.npm
                                       && old(pms)[all.npm].cbs == [] ==>
                all.npm < |pms| && pms[all.npm].cbs == [] && |alls| == |old(alls)| && touched == old(touched)
      ensures Work(pms) <= old(Work(pms)) + 2
      decreases Work(pms) + 2, 1
    {
      hide Kept, MaySettle, Work, Obeyed, ServedUpTo;
      ghost var s := View();
      WhatToLook(s, a, i, running);
      var all := alls[a];
      var p := all.inputs[i];
      match pms[p].state
      case Pending =>
        LinkKeeps(s, a, i, running);
        LinkObeys(fn, s, a, i, running);
        NoneRun(s, p, running, {});
        AttachWork(s, p, Pair(Slot(a, i), Forward(all.npm, false)));
        alls := alls[a := all.(links := all.links[i := Linked(|pms[p].cbs|)])];
        pms := pms[p := pms[p].(cbs := pms[p].cbs + [Pair(Slot(a, i), Forward(all.npm, false))])];
      case Fulfilled(v) =>
        FulfilledKeeps(s, a, i, running);
        RunSlot(a, i, v, running);
        OneLooked(s, StoreResult(s, a, i, v), View(), a, i);
      case Rejected(v) =>
        LostKeeps(s, a, i, running);
        RelinkObeys(fn, s, a, i, Lost, running);
        alls := alls[a := all.(links := all.links[i := Lost])];
        Settle(all.npm, false, v, running, {a});
        OneLooked(s, Relink(s, a, i, Lost), View(), a, i);
    }

    // ---- calls from outside ----

    ghost predicate Valid()
      reads this
    {
      Kept(View(), {}, {}) && Looked(View()) && Obeyed(fn, View(), {})
    }

    constructor (fn: Pure)
      ensures this.fn == fn && Valid() && pms == [] && alls == [] && trace == [] && touched == {}
      ensures asked == [] && done == []
    {
      this.fn := fn;
      pms, alls, trace, touched, asked, done := [], [], [], {}, [], [];
    }

    method New() returns (id: Id)
      requires Valid()
      modifies this
      ensures Valid() && View() == NewPromise(old(View())) && id == |old(pms)|
    {
      hide Kept, Obeyed;
      id := Make({});
    }

    /** resolve and reject. */
    method Resolve(id: Id, up: bool, v: Value)
      requires Valid() && id < |pms|
      modifies this
      ensures Valid() && Later(old(View()), View()) && Still(old(View()), View())
      ensures id < |pms| && pms[id].state == if !old(pms)[id].state.Pending? then old(pms)[id].state
                                            else if up then Fulfilled(v) else Rejected(v)
      ensures Request(id, up, v) in asked && ServedUpTo(fn, View(), id, |pms[id].cbs|)
    {
      hide Kept, ServedUpTo, Obeyed;
      Settle(id, up, v, {}, {});
      LaterLooked(old(View()), View());
    }

    /** `then` and `fail`: callbacks that know the promises of env. */
    method Then(id: Id, onFul: Option<Handler>, onRej: Option<Handler>, env: seq<Id>) returns (npm: Id)
      requires Valid() && id < |pms| && InScope(|pms|, env)
      requires (onFul.Some? ==> Fits(onFul.value, |env|)) && (onRej.Some? ==> Fits(onRej.value, |env|))
      modifies this
      ensures Valid() && Later(old(View()), View()) && Still(old(View()), View())
      ensures npm == |old(pms)| < |pms|
      ensures old(pms)[id].state.Pending? ==>
                pms == old(pms)[id := old(pms)[id].(cbs := old(pms)[id].cbs + [PairOf(onFul, onRej, env, npm)])]
                       + [Promise(Pending, [], 0)]
      ensures old(pms)[id].state.Fulfilled? ==>
                Effect(fn, View(), PairOf(onFul, onRej, env, npm).ful, old(pms)[id].state.v)
      ensures old(pms)[id].state.Rejected? ==>
                Effect(fn, View(), PairOf(onFul, onRej, env, npm).rej, old(pms)[id].state.v)
      ensures old(pms)[id].state.Fulfilled? && onFul.None? ==> pms[npm].state == old(pms)[id].state
      ensures old(pms)[id].state.Rejected? && onRej.None? ==> pms[npm].state == old(pms)[id].state
    {
      hide Kept, Effect, Fits, Obeyed;
      npm := Register(id, onFul, onRej, env, {});
      LaterLooked(old(View()), View());
    }

    /** `all`; on an empty list it throws. */
    method AllOf(inputs: seq<Id>) returns (npm: Option<Id>)
      requires Valid() && InScope(|pms|, inputs)
      modifies this
      ensures Valid() && Later(old(View()), View()) && Still(old(View()), View())
      ensures inputs == [] ==> npm.None? && View() == old(View())
      ensures inputs != [] ==> npm == Some(|old(pms)|) && |old(pms)| < |pms| && |old(pms)| !in touched
      ensures inputs != [] ==> |alls| == |old(alls)| + 1 && alls[|old(alls)|].inputs == inputs
                               && alls[|old(alls)|].npm == |old(pms)|
    {
      hide Kept, Obeyed;
      if inputs == [] { return None; }
      var p := Await(inputs, {});
      LaterLooked(old(View()), View());
      npm := Some(p);
    }
  }

  lemma Untouched(s: Store, running: set<Id>)
    requires Kept(s, running, {})
    ensures |s.pms| !in s.touched
  {
  }

  lemma StartedLater(s: Store, inputs: seq<Id>)
    ensures var s' := NewPromise(s).(alls := s.alls + [AllOn(s, inputs)]);
            LaterBut(s, s', |s.alls|) && Still(s, s') && Looking(AllOn(s, inputs), 0)
  {
  }

  lemma AllLookedAt(s: Store, s': Store, a: nat)
    requires LaterBut(s, s', a) && |s.alls| <= a < |s'.alls| && Looking(s'.alls[a], |s'.alls[a].links|)
    ensures Later(s, s')
  {
  }

  // ---- what it comes to ----

  /** The values of promises that are all settled. */
  function ValuesOf(s: Store, inputs: seq<Id>): seq<Value>
    requires forall i :: 0 <= i < |inputs| ==> inputs[i] < |s.pms| && !s.pms[inputs[i]].state.Pending?
  {
    seq(|inputs|, i requires 0 <= i < |inputs| => s.pms[inputs[i]].state.v)
  }

  /** Between calls, the promise that `all` returned is fulfilled exactly when every input is, with
      their values in the order of the inputs, and rejected exactly when some input is, with a reason
      that an input was rejected with; in whatever order the inputs were settled. */
  lemma AllIsExact(s: Store, a: nat)
    requires Kept(s, {}, {}) && Looked(s) && a < |s.alls| && s.alls[a].npm !in s.touched
    ensures var npm, inputs := s.alls[a].npm, s.alls[a].inputs;
            && npm < |s.pms| && (forall i :: 0 <= i < |inputs| ==> inputs[i] < |s.pms|)
            && (s.pms[npm].state.Fulfilled? <==>
                  forall i :: 0 <= i < |inputs| ==> s.pms[inputs[i]].state.Fulfilled?)
            && (s.pms[npm].state.Fulfilled? ==> s.pms[npm].state.v == List(ValuesOf(s, inputs)))
            && (s.pms[npm].state.Rejected? <==>
                  exists i :: 0 <= i < |inputs| && s.pms[inputs[i]].state.Rejected?)
            && (s.pms[npm].state.Rejected? ==>
                  exists i :: 0 <= i < |inputs| && s.pms[inputs[i]].state == s.pms[npm].state)
  {
    hide Kept, Looked;
    var all := s.alls[a];
    InputsDecide(s, a);
    if s.pms[all.npm].state.Fulfilled? {
      assert all.results == ValuesOf(s, all.inputs);
    }
  }

  lemma InputsDecide(s: Store, a: nat)
    requires Kept(s, {}, {}) && Looked(s) && a < |s.alls| && s.alls[a].npm !in s.touched
    ensures var all := s.alls[a];
            && all.npm < |s.pms| && |all.results| == |all.inputs|
            && (forall i :: 0 <= i < |all.inputs| ==> all.inputs[i] < |s.pms|)
            && match s.pms[all.npm].state
               case Fulfilled(v) => v == List(all.results)
                 && forall i :: 0 <= i < |all.inputs| ==> s.pms[all.inputs[i]].state == Fulfilled(all.results[i])
               case Rejected(v) => exists i :: 0 <= i < |all.inputs| && s.pms[all.inputs[i]].state == Rejected(v)
               case Pending =>
                 && (exists i :: 0 <= i < |all.inputs| && !s.pms[all.inputs[i]].state.Fulfilled?)
                 && forall i :: 0 <= i < |all.inputs| ==> !s.pms[all.inputs[i]].state.Rejected?
  {
    hide Wired, Traced;
    var all := s.alls[a];
    assert AllOk(s, all, false);
    OpenZero(all.links);
    forall i | 0 <= i < |all.inputs|
      ensures s.pms[all.inputs[i]].state.Fulfilled? ==> all.links[i].Stored?
      ensures s.pms[all.inputs[i]].state.Rejected? ==> Told(s, all, i) && !all.links[i].Stored?
      ensures all.links[i].Stored? ==> s.pms[all.inputs[i]].state == Fulfilled(all.results[i])
    {
      assert LinkOk(s, all, i) && !all.links[i].Todo?;
    }
  }

  /** Between calls, the callbacks of a settled promise have each been run once, in the order in which
      they were registered; those of a pending one have not been run. */
  lemma CallbacksRunOnce(s: Store, p: Id, k: nat)
    requires Kept(s, {}, {}) && p < |s.pms| && k < |s.pms[p].cbs|
    ensures StepsOf(s.trace, p) == if s.pms[p].state.Pending? then [] else Upto(|s.pms[p].cbs|)
    ensures multiset(s.trace)[(p, k)] == if s.pms[p].state.Pending? then 0 else 1
  {
    StepsCount(s.trace, p, k);
    UptoCount(s.pms[p].next, k);
  }

  lemma {:induction false} StepsCount(trace: seq<(Id, nat)>, p: Id, k: nat)
    ensures multiset(trace)[(p, k)] == multiset(StepsOf(trace, p))[k]
  {
    if trace != [] {
      var n := |trace| - 1;
      StepsCount(trace[..n], p, k);
      assert trace == trace[..n] + [trace[n]];
    }
  }

  lemma {:induction false} UptoCount(n: nat, k: nat)
    ensures multiset(Upto(n))[k] == if k < n then 1 else 0
  {
    if n > 0 {
      UptoCount(n - 1, k);
      assert Upto(n) == Upto(n - 1) + [n - 1];
    }
  }
}
