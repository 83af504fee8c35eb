/** What it means that a callback has been run: which promises it has settled, with which values, what it has
    registered and where, and what it has made others wait for. */
module PromiseEffects {
  import opened Core
  import opened Promises
  import opened PromiseSteps

  // ---- settling ----

  function StateOf(r: Request): PmState {
    if r.up then Fulfilled(r.v) else Rejected(r.v)
  }

  /** The state that a promise is given by a sequence of calls: the first one counts. */
  function Decided(asked: seq<Request>, p: Id): PmState {
    if asked == [] then Pending
    else
      var n := |asked| - 1;
      var before := Decided(asked[..n], p);
      if before.Pending? && asked[n].id == p then StateOf(asked[n]) else before
  }

  lemma DecidedSnoc(asked: seq<Request>, r: Request, p: Id)
    ensures Decided(asked + [r], p) ==
            if Decided(asked, p).Pending? && r.id == p then StateOf(r) else Decided(asked, p)
  {
    assert (asked + [r])[..|asked|] == asked;
  }

  /** The k-th call is the first one for p. */
  ghost predicate IsFirst(asked: seq<Request>, p: Id, k: nat) {
    k < |asked| && asked[k].id == p && NoneBefore(asked, p, k)
  }

  ghost predicate NoneBefore(asked: seq<Request>, p: Id, k: nat) {
    k <= |asked| && forall j :: 0 <= j < k ==> asked[j].id != p
  }

  lemma {:induction false} DecidedIsFirst(asked: seq<Request>, p: Id)
    ensures Decided(asked, p).Pending? <==> NoneBefore(asked, p, |asked|)
    ensures forall k: nat :: IsFirst(asked, p, k) ==> Decided(asked, p) == StateOf(asked[k])
  {
    if asked != [] {
      var n := |asked| - 1;
      DecidedIsFirst(asked[..n], p);
      assert NoneBefore(asked, p, |asked|) <==> NoneBefore(asked[..n], p, n) && asked[n].id != p;
      forall k: nat | IsFirst(asked, p, k) ensures Decided(asked, p) == StateOf(asked[k]) {
        if k < n {
          assert IsFirst(asked[..n], p, k);
        } else {
          assert NoneBefore(asked[..n], p, n);
        }
      }
    }
  }

  // ---- callbacks ----

  /** What `then` and `fail` add to a pending promise: a missing callback passes the result on. */
  function PairOf(onFul: Option<Handler>, onRej: Option<Handler>, env: seq<Id>, npm: Id): Pair {
    Pair(if onFul.Some? then Call(onFul.value, env, npm, true) else Forward(npm, true),
         if onRej.Some? then Call(onRej.value, env, npm, false) else Forward(npm, false))
  }

  /** The k-th callback of the vector that is triggered. */
  function Active(pm: Promise, k: nat): Callback
    requires k < |pm.cbs|
  {
    if pm.state.Rejected? then pm.cbs[k].rej else pm.cbs[k].ful
  }

  /** The promises in scope exist. */
  predicate InScope(n: nat, env: seq<Id>) {
    forall i :: 0 <= i < |env| ==> env[i] < n
  }

  function Chosen(env: seq<Id>, ps: seq<nat>): seq<Id>
    requires InScope(|env|, ps)
  {
    seq(|ps|, i requires 0 <= i < |ps| => env[ps[i]])
  }

  /** The pair is registered on a promise, or the right one of the two was run at once. */
  ghost predicate Registered(s: Store, id: Id, pair: Pair) {
    && id < |s.pms|
    && (pair in s.pms[id].cbs
        || match s.pms[id].state
           case Pending => false
           case Fulfilled(v) => (pair.ful, v) in s.done
           case Rejected(v) => (pair.rej, v) in s.done)
  }

  ghost predicate Awaited(s: Store, inputs: seq<Id>, npm: Id) {
    exists a :: 0 <= a < |s.alls| && s.alls[a].inputs == inputs && s.alls[a].npm == npm
  }

  /** How many promises are in scope before the k-th act, n being in scope at the beginning. */
  function ScopeAt(acts: seq<Act>, n: nat, k: nat): nat
    requires k <= |acts|
  {
    if k == 0 then n else ScopeAt(acts, n, k - 1) + Makes(acts[k - 1])
  }

  /** An act has been carried out, with the first n promises of env in scope; the next one is its own. */
  ghost predicate ActDone(s: Store, act: Act, env: seq<Id>, n: nat) {
    n + Makes(act) <= |env|
    && match act
       case Settle(p, up, v) => p < n && Request(env[p], up, v) in s.asked
       case Make => env[n] < |s.pms|
       case Register(p, onFul, onRej) => p < n && Registered(s, env[p], PairOf(onFul, onRej, env[..n], env[n]))
       case Await(ps) => InScope(n, ps) && Awaited(s, Chosen(env, ps), env[n])
  }

  ghost predicate CodeDone(s: Store, acts: seq<Act>, env: seq<Id>, n: nat, k: nat)
    requires k <= |acts|
  {
    forall j :: 0 <= j < k ==> ActDone(s, acts[j], env, ScopeAt(acts, n, j))
  }

  /** npm follows p: it has been settled in the same way, or will be. */
  ghost predicate Follows(s: Store, p: Id, npm: Id) {
    && p < |s.pms|
    && (Pair(Forward(npm, true), Forward(npm, false)) in s.pms[p].cbs
        || match s.pms[p].state
           case Pending => false
           case Fulfilled(v) => Request(npm, true, v) in s.asked
           case Rejected(v) => Request(npm, false, v) in s.asked)
  }

  ghost predicate Returned(fn: Pure, s: Store, ret: Return, env: seq<Id>, npm: Id, up: bool, v: Value) {
    match ret
    case Nothing => Request(npm, up, Unit) in s.asked
    case Result(f) => Request(npm, up, fn(f, v)) in s.asked
    case Follow(p) => p < |env| && Follows(s, env[p], npm)
  }

  ghost predicate Served(fn: Pure, s: Store, h: Handler, env: seq<Id>, n: nat, npm: Id, up: bool, v: Value) {
    CodeDone(s, h.acts, env, n, |h.acts|) && Returned(fn, s, h.ret, env, npm, up, v)
  }

  /** The callback has been run with argument v: all its acts have been carried out, and the dependent
      promise has been told the result. */
  ghost predicate Effect(fn: Pure, s: Store, cb: Callback, v: Value) {
    match cb
    case Forward(npm, up) => Request(npm, up, v) in s.asked
    case Slot(a, i) => true
    case Call(h, env, npm, up) => exists env' :: env <= env' && Served(fn, s, h, env', |env|, npm, up, v)
  }

  /** Every promise is in the state of the first call for it, and every callback that was run, and every one
      that is registered on a settled promise whose callbacks are not being run right now, has had its
      effect. */
  ghost predicate Obeyed(fn: Pure, s: Store, running: set<Id>) {
    && (forall k :: 0 <= k < |s.asked| ==> s.asked[k].id < |s.pms|)
    && (forall p :: 0 <= p < |s.pms| ==> s.pms[p].state == Decided(s.asked, p))
    && (forall k :: 0 <= k < |s.done| ==> Effect(fn, s, s.done[k].0, s.done[k].1))
    && (forall p :: 0 <= p < |s.pms| && p !in running && !s.pms[p].state.Pending? ==>
          ServedUpTo(fn, s, p, |s.pms[p].cbs|))
  }

  ghost predicate ServedUpTo(fn: Pure, s: Store, id: Id, n: nat) {
    && id < |s.pms| && n <= |s.pms[id].cbs| && !s.pms[id].state.Pending?
    && forall k :: 0 <= k < n ==> Effect(fn, s, Active(s.pms[id], k), s.pms[id].state.v)
  }

  // ---- effects last ----

  ghost predicate Onward(s: Store, s': Store) {
    && |s.pms| <= |s'.pms| && |s.alls| <= |s'.alls|
    && (forall p :: 0 <= p < |s.pms| ==>
          && (!s.pms[p].state.Pending? ==> s'.pms[p].state == s.pms[p].state && s'.pms[p].cbs == s.pms[p].cbs)
          && s.pms[p].cbs <= s'.pms[p].cbs)
    && (forall a :: 0 <= a < |s.alls| ==> s'.alls[a].inputs == s.alls[a].inputs && s'.alls[a].npm == s.alls[a].npm)
    && s.asked <= s'.asked && s.done <= s'.done
  }

  lemma LaterIsOnward(s: Store, s': Store)
    requires Later(s, s')
    ensures Onward(s, s')
  {
    forall a | 0 <= a < |s.alls| ensures s'.alls[a].inputs == s.alls[a].inputs && s'.alls[a].npm == s.alls[a].npm {
      assert AllLater(s.alls[a], s'.alls[a]);
    }
  }

  lemma RegisteredStays(s: Store, s': Store, id: Id, pair: Pair)
    requires Registered(s, id, pair) && Onward(s, s')
    ensures Registered(s', id, pair)
  {
  }

  lemma FollowsStays(s: Store, s': Store, p: Id, npm: Id)
    requires Follows(s, p, npm) && Onward(s, s')
    ensures Follows(s', p, npm)
  {
  }

  lemma AwaitedStays(s: Store, s': Store, inputs: seq<Id>, npm: Id)
    requires Awaited(s, inputs, npm) && Onward(s, s')
    ensures Awaited(s', inputs, npm)
  {
    var a :| 0 <= a < |s.alls| && s.alls[a].inputs == inputs && s.alls[a].npm == npm;
    assert s'.alls[a].inputs == inputs && s'.alls[a].npm == npm;
  }

  lemma ActStays(s: Store, s': Store, act: Act, env: seq<Id>, env': seq<Id>, n: nat)
    requires ActDone(s, act, env, n) && Onward(s, s') && env <= env'
    ensures ActDone(s', act, env', n)
  {
    hide Registered, Awaited;
    match act
    case Settle(p, up, v) =>
    case Make =>
    case Register(p, onFul, onRej) =>
      assert env'[..n] == env[..n];
      RegisteredStays(s, s', env[p], PairOf(onFul, onRej, env[..n], env[n]));
    case Await(ps) =>
      assert Chosen(env', ps) == Chosen(env, ps);
      AwaitedStays(s, s', Chosen(env, ps), env[n]);
  }

  lemma CodeStays(s: Store, s': Store, acts: seq<Act>, env: seq<Id>, env': seq<Id>, n: nat, k: nat)
    requires k <= |acts| && CodeDone(s, acts, env, n, k) && Onward(s, s') && env <= env'
    ensures CodeDone(s', acts, env', n, k)
  {
    hide ActDone;
    forall j | 0 <= j < k ensures ActDone(s', acts[j], env', ScopeAt(acts, n, j)) {
      ActStays(s, s', acts[j], env, env', ScopeAt(acts, n, j));
    }
  }

  lemma ServedStays(fn: Pure, s: Store, s': Store, h: Handler, env: seq<Id>, n: nat, npm: Id, up: bool, v: Value)
    requires Served(fn, s, h, env, n, npm, up, v) && Onward(s, s')
    ensures Served(fn, s', h, env, n, npm, up, v)
  {
    hide CodeDone, Follows;
    CodeStays(s, s', h.acts, env, env, n, |h.acts|);
    if h.ret.Follow? {
      FollowsStays(s, s', env[h.ret.p], npm);
    }
  }

  lemma EffectStays(fn: Pure, s: Store, s': Store, cb: Callback, v: Value)
    requires Effect(fn, s, cb, v) && Onward(s, s')
    ensures Effect(fn, s', cb, v)
  {
    hide Served;
    if cb.Call? {
      var env' :| cb.env <= env' && Served(fn, s, cb.h, env', |cb.env|, cb.npm, cb.up, v);
      ServedStays(fn, s, s', cb.h, env', |cb.env|, cb.npm, cb.up, v);
    }
  }

  lemma ServedUpToStays(fn: Pure, s: Store, s': Store, id: Id, n: nat)
    requires ServedUpTo(fn, s, id, n) && Onward(s, s')
    ensures ServedUpTo(fn, s', id, n)
  {
    hide Effect;
    forall k | 0 <= k < n ensures Effect(fn, s', Active(s'.pms[id], k), s'.pms[id].state.v) {
      EffectStays(fn, s, s', Active(s.pms[id], k), s.pms[id].state.v);
    }
  }

  lemma OneMoreServed(fn: Pure, s: Store, s': Store, id: Id, n: nat)
    requires ServedUpTo(fn, s, id, n) && Later(s, s') && n < |s.pms[id].cbs|
    requires Effect(fn, s', Active(s.pms[id], n), s.pms[id].state.v)
    ensures ServedUpTo(fn, s', id, n + 1)
  {
    hide Effect;
    LaterIsOnward(s, s');
    ServedUpToStays(fn, s, s', id, n);
  }

  // ---- what each small step does ----

  lemma OldEffectsStay(fn: Pure, s: Store, s': Store, running: set<Id>)
    requires Obeyed(fn, s, running) && Onward(s, s')
    ensures forall k :: 0 <= k < |s.done| ==> Effect(fn, s', s'.done[k].0, s'.done[k].1)
    ensures forall p :: 0 <= p < |s.pms| && p !in running && !s.pms[p].state.Pending? ==>
              ServedUpTo(fn, s', p, |s'.pms[p].cbs|)
  {
    hide Effect, ServedUpTo;
    forall k | 0 <= k < |s.done| ensures Effect(fn, s', s'.done[k].0, s'.done[k].1) {
      EffectStays(fn, s, s', s.done[k].0, s.done[k].1);
      assert s'.done[k] == s.done[k];
    }
    forall p | 0 <= p < |s.pms| && p !in running && !s.pms[p].state.Pending?
      ensures ServedUpTo(fn, s', p, |s'.pms[p].cbs|)
    {
      ServedUpToStays(fn, s, s', p, |s.pms[p].cbs|);
    }
  }

  /** Nothing is settled in the step. */
  lemma QuietObeys(fn: Pure, s: Store, s': Store, running: set<Id>)
    requires Obeyed(fn, s, running) && Onward(s, s') && s'.asked == s.asked && s'.done == s.done
    requires forall p :: 0 <= p < |s.pms| ==> s'.pms[p].state == s.pms[p].state
    requires forall p :: |s.pms| <= p < |s'.pms| ==> s'.pms[p].state.Pending?
    ensures Obeyed(fn, s', running)
  {
    hide Effect, ServedUpTo, Onward;
    OldEffectsStay(fn, s, s', running);
    forall p | |s.pms| <= p < |s'.pms| ensures Decided(s'.asked, p).Pending? {
      DecidedIsFirst(s'.asked, p);
    }
    OnwardSizes(s, s');
  }

  lemma OnwardSizes(s: Store, s': Store)
    requires Onward(s, s')
    ensures |s.pms| <= |s'.pms|
  {
  }

  /** A call for a promise that is settled already. */
  lemma AskedAgain(fn: Pure, s: Store, r: Request, running: set<Id>)
    requires Obeyed(fn, s, running) && r.id < |s.pms| && !s.pms[r.id].state.Pending?
    ensures Obeyed(fn, s.(asked := s.asked + [r]), running)
  {
    hide Effect, ServedUpTo;
    var s' := s.(asked := s.asked + [r]);
    OldEffectsStay(fn, s, s', running);
    forall p | 0 <= p < |s'.pms| ensures s'.pms[p].state == Decided(s'.asked, p) {
      DecidedSnoc(s.asked, r, p);
    }
  }

  /** A call for a pending promise: its callbacks are to be run. */
  lemma AskedFirst(fn: Pure, s: Store, s': Store, r: Request, running: set<Id>)
    requires Obeyed(fn, s, running) && r.id < |s.pms| && s.pms[r.id].state.Pending? && Onward(s, s')
    requires s'.asked == s.asked + [r] && s'.done == s.done
    requires s'.pms == s.pms[r.id := s.pms[r.id].(state := StateOf(r))]
    ensures Obeyed(fn, s', running + {r.id})
  {
    hide Effect, ServedUpTo, Onward;
    OldEffectsStay(fn, s, s', running);
    forall p | 0 <= p < |s'.pms| ensures s'.pms[p].state == Decided(s'.asked, p) {
      DecidedSnoc(s.asked, r, p);
    }
  }

  /** A callback has been run to its end. */
  lemma DoneObeys(fn: Pure, s: Store, cb: Callback, v: Value, running: set<Id>)
    requires Obeyed(fn, s, running) && Effect(fn, s, cb, v)
    ensures var s' := s.(done := s.done + [(cb, v)]); Obeyed(fn, s', running) && Effect(fn, s', cb, v) && Onward(s, s')
  {
    hide Effect, ServedUpTo;
    var s' := s.(done := s.done + [(cb, v)]);
    OldEffectsStay(fn, s, s', running);
    EffectStays(fn, s, s', cb, v);
  }

  /** All callbacks of a promise have been run. */
  lemma DrainedObeys(fn: Pure, s: Store, id: Id, running: set<Id>)
    requires Obeyed(fn, s, running) && id < |s.pms| && ServedUpTo(fn, s, id, |s.pms[id].cbs|)
    ensures Obeyed(fn, s, running - {id})
  {
    hide Effect, ServedUpTo;
  }

  lemma WasServed(fn: Pure, s: Store, id: Id, running: set<Id>)
    requires Obeyed(fn, s, running) && id < |s.pms| && !s.pms[id].state.Pending? && id !in running
    ensures ServedUpTo(fn, s, id, |s.pms[id].cbs|)
  {
  }

  /** The small steps that settle nothing. */
  lemma StepObeys(fn: Pure, s: Store, id: Id, running: set<Id>)
    requires Obeyed(fn, s, running) && id < |s.pms|
    ensures Obeyed(fn, Advance(s, id), running)
  {
    hide Obeyed;
    QuietObeys(fn, s, Advance(s, id), running);
  }

  lemma AttachObeys(fn: Pure, s: Store, id: Id, pair: Pair, running: set<Id>)
    requires Obeyed(fn, s, running) && id < |s.pms| && s.pms[id].state.Pending?
    ensures Obeyed(fn, Attach(s, id, pair), running)
  {
    hide Obeyed;
    QuietObeys(fn, s, Attach(s, id, pair), running);
  }

  lemma NewObeys(fn: Pure, s: Store, running: set<Id>)
    requires Obeyed(fn, s, running)
    ensures Obeyed(fn, NewPromise(s), running)
  {
    hide Obeyed;
    QuietObeys(fn, s, NewPromise(s), running);
  }

  lemma StartObeys(fn: Pure, s: Store, inputs: seq<Id>, running: set<Id>)
    requires Obeyed(fn, s, running)
    ensures Obeyed(fn, NewPromise(s).(alls := s.alls + [AllOn(s, inputs)]), running)
  {
    hide Obeyed;
    QuietObeys(fn, s, NewPromise(s).(alls := s.alls + [AllOn(s, inputs)]), running);
  }

  lemma StoreObeys(fn: Pure, s: Store, a: nat, i: nat, v: Value, running: set<Id>)
    requires a < |s.alls| && i < |s.alls[a].links| == |s.alls[a].results| && s.alls[a].left > 0
    requires Obeyed(fn, s, running)
    ensures Obeyed(fn, StoreResult(s, a, i, v), running)
  {
    hide Obeyed;
    QuietObeys(fn, s, StoreResult(s, a, i, v), running);
  }

  lemma RelinkObeys(fn: Pure, s: Store, a: nat, i: nat, link: Link, running: set<Id>)
    requires a < |s.alls| && i < |s.alls[a].links| && Obeyed(fn, s, running)
    ensures Obeyed(fn, Relink(s, a, i, link), running)
  {
    hide Obeyed;
    QuietObeys(fn, s, Relink(s, a, i, link), running);
  }

  lemma LinkObeys(fn: Pure, s: Store, a: nat, i: nat, running: set<Id>)
    requires ToLook(s, a, i) && s.pms[s.alls[a].inputs[i]].state.Pending? && Obeyed(fn, s, running)
    ensures Obeyed(fn, LinkTo(s, a, i), running)
  {
    hide Obeyed;
    QuietObeys(fn, s, LinkTo(s, a, i), running);
  }

  // ---- what it comes to ----

  /** A promise is pending exactly as long as nobody has called resolve or reject on it, and afterwards in the
      state of the first call, whatever came later. */
  lemma FirstCallDecides(fn: Pure, s: Store, p: Id)
    requires Obeyed(fn, s, {}) && p < |s.pms|
    ensures s.pms[p].state.Pending? <==> NoneBefore(s.asked, p, |s.asked|)
    ensures forall k: nat :: IsFirst(s.asked, p, k) ==> s.pms[p].state == StateOf(s.asked[k])
  {
    hide Effect, ServedUpTo;
    DecidedIsFirst(s.asked, p);
  }

  /** Nobody has called resolve or reject on p twice. */
  ghost predicate CalledOnce(s: Store, p: Id) {
    forall i, j :: 0 <= i < j < |s.asked| && s.asked[i].id == p ==> s.asked[j].id != p
  }

  lemma OnlyCallDecides(fn: Pure, s: Store, r: Request)
    requires Obeyed(fn, s, {}) && r in s.asked && CalledOnce(s, r.id)
    ensures r.id < |s.pms| && s.pms[r.id].state == StateOf(r)
  {
    hide Effect, ServedUpTo;
    var i :| 0 <= i < |s.asked| && s.asked[i] == r;
    FirstCallDecides(fn, s, r.id);
    assert IsFirst(s.asked, r.id, i);
  }

  /** What `then` promises, if nobody else settles the promise it has returned: with a missing callback that one
      ends as the first one does, and with a callback that returns a value, in that value. */
  lemma ThenPassesOn(fn: Pure, s: Store, p: Id, k: nat)
    requires Obeyed(fn, s, {}) && p < |s.pms| && k < |s.pms[p].cbs| && !s.pms[p].state.Pending?
    ensures var v := s.pms[p].state.v;
            match Active(s.pms[p], k)
            case Slot(_, _) => true
            case Forward(npm, up) =>
              CalledOnce(s, npm) ==> npm < |s.pms| && s.pms[npm].state == StateOf(Request(npm, up, v))
            case Call(h, env, npm, up) =>
              CalledOnce(s, npm) ==>
                && (h.ret.Result? ==> npm < |s.pms| && s.pms[npm].state == StateOf(Request(npm, up, fn(h.ret.f, v))))
                && (h.ret.Nothing? ==> npm < |s.pms| && s.pms[npm].state == StateOf(Request(npm, up, Unit)))
  {
    hide Obeyed;
    var v := s.pms[p].state.v;
    EffectOf(fn, s, p, k);
    match Active(s.pms[p], k)
    case Slot(_, _) =>
    case Forward(npm, up) =>
      if CalledOnce(s, npm) {
        OnlyCallDecides(fn, s, Request(npm, up, v));
      }
    case Call(h, env, npm, up) =>
      if CalledOnce(s, npm) && !h.ret.Follow? {
        OnlyCallDecides(fn, s, Request(npm, up, if h.ret.Result? then fn(h.ret.f, v) else Unit));
      }
  }

  /** Every callback registered on a settled promise has had its effect, with the value of the promise. */
  lemma EffectOf(fn: Pure, s: Store, p: Id, k: nat)
    requires Obeyed(fn, s, {}) && p < |s.pms| && k < |s.pms[p].cbs| && !s.pms[p].state.Pending?
    ensures Effect(fn, s, Active(s.pms[p], k), s.pms[p].state.v)
  {
    hide Effect;
    assert ServedUpTo(fn, s, p, |s.pms[p].cbs|);
  }
}
