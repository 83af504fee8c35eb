/** How each small step of the promise library keeps what Promises says. */
module PromiseSteps {
  import opened Promises

  // ---- the small steps ----

  /** The promise leaves the pending state; `own` if the `all` that returned it says so. */
  function Mark(s: Store, id: Id, st: PmState, own: bool): Store
    requires id < |s.pms|
  {
    s.(pms := s.pms[id := s.pms[id].(state := st)], touched := if own then s.touched else s.touched + {id})
  }

  function Advance(s: Store, id: Id): Store
    requires id < |s.pms|
  {
    s.(pms := s.pms[id := s.pms[id].(next := s.pms[id].next + 1)], trace := s.trace + [(id, s.pms[id].next)])
  }

  function Attach(s: Store, id: Id, pair: Pair): Store
    requires id < |s.pms|
  {
    s.(pms := s.pms[id := s.pms[id].(cbs := s.pms[id].cbs + [pair])])
  }

  function NewPromise(s: Store): Store {
    s.(pms := s.pms + [Promise(Pending, [], 0)])
  }

  function StoreResult(s: Store, a: nat, i: nat, v: Value): Store
    requires a < |s.alls| && i < |s.alls[a].links| == |s.alls[a].results| && s.alls[a].left > 0
  {
    var all := s.alls[a];
    s.(alls := s.alls[a := all.(results := all.results[i := v], links := all.links[i := Stored], left := all.left - 1)])
  }

  lemma LaterTransitive(a: Store, b: Store, c: Store)
    requires Later(a, b) && Later(b, c)
    ensures Later(a, c)
  {
    forall k | 0 <= k < |a.alls| ensures AllLater(a.alls[k], c.alls[k]) {
      assert AllLater(a.alls[k], b.alls[k]) && AllLater(b.alls[k], c.alls[k]);
    }
    forall k | |a.alls| <= k < |c.alls| ensures LookedAt(c.alls[k]) {
      if k < |b.alls| {
        assert LookedAt(b.alls[k]) && AllLater(b.alls[k], c.alls[k]);
      }
    }
  }

  lemma StepsSnoc(trace: seq<(Id, nat)>, id: Id, k: nat, p: Id)
    ensures StepsOf(trace + [(id, k)], p) == StepsOf(trace, p) + if p == id then [k] else []
  {
    assert (trace + [(id, k)])[..|trace|] == trace;
  }

  lemma {:induction false} OpenUpdate(links: seq<Link>, i: nat)
    requires i < |links| && !links[i].Stored?
    ensures Open(links) > 0 && Open(links[i := Stored]) == Open(links) - 1
  {
    var n := |links| - 1;
    if i < n {
      OpenUpdate(links[..n], i);
      assert links[i := Stored][..n] == links[..n][i := Stored];
    } else {
      assert links[i := Stored][..n] == links[..n];
    }
  }

  lemma {:induction false} OpenZero(links: seq<Link>)
    ensures Open(links) == 0 <==> forall i :: 0 <= i < |links| ==> links[i].Stored?
  {
    if links != [] {
      OpenZero(links[..|links| - 1]);
      assert forall i :: 0 <= i < |links| - 1 ==> links[..|links| - 1][i] == links[i];
    }
  }

  /** An `all` does not notice more promises, nor more callbacks on pending ones. */
  lemma StaysAll(s: Store, s': Store, all: All, due: bool)
    requires AllOk(s, all, due) && |s.pms| <= |s'.pms| && s.touched <= s'.touched
    requires forall p :: 0 <= p < |s.pms| ==>
               s'.pms[p].state == s.pms[p].state && s'.pms[p].next == s.pms[p].next && s.pms[p].cbs <= s'.pms[p].cbs
    ensures AllOk(s', all, due) && all.npm < |s.pms|
  {
    forall i | 0 <= i < |all.inputs| ensures LinkOk(s', all, i) && (Told(s', all, i) ==> Told(s, all, i)) {
      assert LinkOk(s, all, i);
    }
    if all.npm !in s.touched && s.pms[all.npm].state.Rejected? {
      var r := s.pms[all.npm].state.v;
      var i :| 0 <= i < |all.inputs| && s.pms[all.inputs[i]].state == Rejected(r);
      assert s'.pms[all.inputs[i]].state == Rejected(r);
    }
  }

  lemma CallbackGrows(n: nat, n': nat, cb: Callback)
    requires CallbackOk(n, cb) && n <= n'
    ensures CallbackOk(n', cb)
  {
  }

  /** A step keeps the callbacks wired if it keeps the slots, and wires what it adds. */
  lemma StaysWired(s: Store, s': Store)
    requires Wired(s) && |s.pms| <= |s'.pms|
    requires forall p, j :: 0 <= p < |s'.pms| && 0 <= j < |s'.pms[p].cbs| ==>
               || PairOk(s', p, j, s'.pms[p].cbs[j])
               || (&& p < |s.pms| && j < |s.pms[p].cbs| && s'.pms[p].cbs[j] == s.pms[p].cbs[j]
                   && (SlotOk(s, p, j, s.pms[p].cbs[j]) ==> SlotOk(s', p, j, s.pms[p].cbs[j])))
    ensures Wired(s')
  {
    forall p, j | 0 <= p < |s'.pms| && 0 <= j < |s'.pms[p].cbs| ensures PairOk(s', p, j, s'.pms[p].cbs[j]) {
      if !PairOk(s', p, j, s'.pms[p].cbs[j]) {
        var pair := s.pms[p].cbs[j];
        assert PairOk(s, p, j, pair);
        if CallbackOk(|s.pms|, pair.ful) && CallbackOk(|s.pms|, pair.rej) {
          CallbackGrows(|s.pms|, |s'.pms|, pair.ful);
          CallbackGrows(|s.pms|, |s'.pms|, pair.rej);
        }
      }
    }
  }

  lemma MarkWired(s: Store, id: Id, st: PmState, own: bool)
    requires Wired(s) && id < |s.pms| && s.pms[id].state.Pending?
    ensures Wired(Mark(s, id, st, own))
  {
    StaysWired(s, Mark(s, id, st, own));
  }

  lemma MarkAll(s: Store, id: Id, up: bool, v: Value, all: All, due: bool, own: bool)
    requires AllOk(s, all, due) && id < |s.pms| && s.pms[id].state.Pending? && s.pms[id].next == 0
    requires if all.npm == id then own ==> AllMaySettle(s, all, up, v) else !due
    ensures AllOk(Mark(s, id, if up then Fulfilled(v) else Rejected(v), own), all, false)
  {
    var s' := Mark(s, id, if up then Fulfilled(v) else Rejected(v), own);
    forall i | 0 <= i < |all.inputs| ensures all.inputs[i] < |s'.pms| && LinkOk(s', all, i) {
      assert LinkOk(s, all, i);
    }
    if all.npm !in s'.touched {
      if s.pms[all.npm].state.Rejected? || (all.npm == id && !up) {
        var r := if all.npm == id then v else s.pms[all.npm].state.v;
        var i :| 0 <= i < |all.inputs| && s.pms[all.inputs[i]].state == Rejected(r);
        assert s'.pms[all.inputs[i]].state == Rejected(r);
      }
      if s'.pms[all.npm].state.Pending? {
        forall i | 0 <= i < |all.inputs| ensures !Told(s', all, i) {
          assert LinkOk(s, all, i) && !Told(s, all, i);
        }
      }
    }
  }

  /** A promise leaves the pending state. */
  lemma MarkKeeps(s: Store, id: Id, up: bool, v: Value, running: set<Id>, due: set<nat>)
    requires Kept(s, running, due) && MaySettle(s, id, up, v, due) && s.pms[id].state.Pending?
    ensures var s' := Mark(s, id, if up then Fulfilled(v) else Rejected(v), due != {});
            Kept(s', running + {id}, {}) && Later(s, s')
  {
    hide Wired, Traced, AllOk, MaySettle, AllMaySettle;
    IdInRange(s, id, up, v, due);
    var st := if up then Fulfilled(v) else Rejected(v);
    MarkWired(s, id, st, due != {});
    MarkTraced(s, id, st, due != {});
    forall a | 0 <= a < |s.alls| ensures AllOk(Mark(s, id, st, due != {}), s.alls[a], false) {
      WhoIsDue(s, id, up, v, due, a);
      MarkAll(s, id, up, v, s.alls[a], a in due, due != {});
    }
  }

  lemma MarkTraced(s: Store, id: Id, st: PmState, own: bool)
    requires Traced(s) && id < |s.pms|
    ensures Traced(Mark(s, id, st, own))
  {
  }

  /** Only the `all` whose promise is being settled is due. */
  lemma WhoIsDue(s: Store, id: Id, up: bool, v: Value, due: set<nat>, a: nat)
    requires AllsOk(s, due) && MaySettle(s, id, up, v, due) && a < |s.alls|
    ensures if s.alls[a].npm == id then due != {} ==> AllMaySettle(s, s.alls[a], up, v) else a !in due
  {
    hide AllOk, AllMaySettle;
  }

  /** The promise was settled before: there is nothing left to do. */
  lemma AlreadySettled(s: Store, id: Id, up: bool, v: Value, running: set<Id>, due: set<nat>)
    requires Kept(s, running, due) && MaySettle(s, id, up, v, due) && !s.pms[id].state.Pending?
    ensures Kept(s, running, {})
  {
    hide Wired, InProgress, Traced, LinkOk, AllMaySettle;
  }

  /** The pair whose turn it is. */
  function Turn(s: Store, id: Id): Pair
    requires id < |s.pms| && s.pms[id].next < |s.pms[id].cbs|
  {
    s.pms[id].cbs[s.pms[id].next]
  }

  lemma AdvanceWired(s: Store, id: Id)
    requires Wired(s) && id < |s.pms| && !s.pms[id].state.Pending? && s.pms[id].next < |s.pms[id].cbs|
    ensures Wired(Advance(s, id))
  {
    StaysWired(s, Advance(s, id));
  }

  lemma AdvanceTraced(s: Store, id: Id)
    requires Traced(s) && id < |s.pms|
    ensures Traced(Advance(s, id))
  {
    var s' := Advance(s, id);
    forall p | 0 <= p < |s'.pms| ensures StepsOf(s'.trace, p) == Upto(s'.pms[p].next) {
      StepsSnoc(s.trace, id, s.pms[id].next, p);
      assert Upto(s.pms[id].next + 1) == Upto(s.pms[id].next) + [s.pms[id].next];
    }
  }

  /** Running a callback that is not the j-th pair of an open link leaves an `all` alone. */
  lemma AdvanceAll(s: Store, id: Id, all: All, due: bool)
    requires AllOk(s, all, due) && id < |s.pms| && !s.pms[id].state.Pending? && s.pms[id].next < |s.pms[id].cbs|
    requires forall i :: 0 <= i < |all.inputs| && all.inputs[i] == id ==> all.links[i] != Linked(s.pms[id].next)
    ensures AllOk(Advance(s, id), all, due)
  {
    var s' := Advance(s, id);
    forall i | 0 <= i < |all.inputs| ensures all.inputs[i] < |s'.pms| && LinkOk(s', all, i) {
      assert LinkOk(s, all, i);
    }
    if all.npm !in s.touched && s.pms[all.npm].state.Rejected? {
      var r := s.pms[all.npm].state.v;
      var i :| 0 <= i < |all.inputs| && s.pms[all.inputs[i]].state == Rejected(r);
      assert s'.pms[all.inputs[i]].state == Rejected(r);
    }
    if all.npm !in s.touched && s'.pms[all.npm].state.Pending? && !due {
      forall i | 0 <= i < |all.inputs| ensures !Told(s', all, i) {
        assert LinkOk(s, all, i) && !Told(s, all, i);
      }
    }
  }

  /** At most one link of one `all` waits for the pair whose turn it is. */
  lemma TurnOfOthers(s: Store, id: Id, all: All, i: nat)
    requires AllOk(s, all, false) && id < |s.pms| && s.pms[id].next < |s.pms[id].cbs|
    requires i < |all.inputs| && all.inputs[i] == id && all.links[i] == Linked(s.pms[id].next)
    ensures Turn(s, id).ful.Slot? && Turn(s, id).ful.idx == i && Turn(s, id).rej == Forward(all.npm, false)
  {
    assert LinkOk(s, all, i);
  }

  /** A user's callback, or the forwarding of a result, is about to be run. */
  lemma AdvanceKeeps(s: Store, id: Id, running: set<Id>)
    requires Kept(s, running, {}) && id in running && s.pms[id].next < |s.pms[id].cbs| && !Turn(s, id).ful.Slot?
    ensures Kept(Advance(s, id), running, {}) && Later(s, Advance(s, id))
    ensures CallbackOk(|s.pms|, Turn(s, id).ful) && CallbackOk(|s.pms|, Turn(s, id).rej)
  {
    AdvanceWired(s, id);
    AdvanceTraced(s, id);
    var s' := Advance(s, id);
    assert CallbackOk(|s.pms|, Turn(s, id).ful) && CallbackOk(|s.pms|, Turn(s, id).rej);
    hide Wired, Traced, AllOk, CallbackOk;
    forall a | 0 <= a < |s.alls| ensures AllOk(s', s.alls[a], false) {
      AdvanceOther(s, id, s.alls[a]);
    }
  }

  lemma AdvanceOther(s: Store, id: Id, all: All)
    requires AllOk(s, all, false) && id < |s.pms| && !s.pms[id].state.Pending? && s.pms[id].next < |s.pms[id].cbs|
    requires !(Turn(s, id).ful.Slot? && Turn(s, id).rej == Forward(all.npm, false))
    ensures AllOk(Advance(s, id), all, false)
  {
    forall i | 0 <= i < |all.inputs| && all.inputs[i] == id ensures all.links[i] != Linked(s.pms[id].next) {
      if all.links[i] == Linked(s.pms[id].next) {
        TurnOfOthers(s, id, all, i);
      }
    }
    AdvanceAll(s, id, all, false);
  }

  /** An input of an `all` was rejected: npm is about to be rejected with the same reason. */
  lemma AdvanceRejected(s: Store, id: Id, running: set<Id>)
    requires Kept(s, running, {}) && id in running && s.pms[id].next < |s.pms[id].cbs|
    requires Turn(s, id).ful.Slot? && s.pms[id].state.Rejected?
    ensures var s', a := Advance(s, id), Turn(s, id).ful.a;
            && Kept(s', running, {a}) && Later(s, s') && a < |s.alls|
            && Turn(s, id).rej == Forward(s.alls[a].npm, false)
            && MaySettle(s', s.alls[a].npm, false, s.pms[id].state.v, {a})
  {
    hide Traced, AllOk, StepsOf;
    AdvanceWired(s, id);
    AdvanceTraced(s, id);
    var s', a := Advance(s, id), Turn(s, id).ful.a;
    assert SlotOk(s, id, s.pms[id].next, Turn(s, id));
    hide Wired, Traced, SlotOk;
    forall b | 0 <= b < |s.alls| ensures AllOk(s', s.alls[b], b == a) {
      if b == a {
        RejectedInput(s, id, s.alls[a]);
      } else {
        AdvanceOther(s, id, s.alls[b]);
      }
    }
    NpmInRange(s, a);
    var i := Turn(s, id).ful.idx;
    assert s'.pms[s'.alls[a].inputs[i]].state == Rejected(s.pms[id].state.v);
  }

  lemma RejectedInput(s: Store, id: Id, all: All)
    requires AllOk(s, all, false) && id < |s.pms| && s.pms[id].state.Rejected? && s.pms[id].next < |s.pms[id].cbs|
    ensures AllOk(Advance(s, id), all, true)
  {
    var s' := Advance(s, id);
    forall i | 0 <= i < |all.inputs| ensures all.inputs[i] < |s'.pms| && LinkOk(s', all, i) {
      assert LinkOk(s, all, i);
    }
    if all.npm !in s.touched && s.pms[all.npm].state.Rejected? {
      var r := s.pms[all.npm].state.v;
      var i :| 0 <= i < |all.inputs| && s.pms[all.inputs[i]].state == Rejected(r);
      assert s'.pms[all.inputs[i]].state == Rejected(r);
    }
  }

  /** The slot whose turn it is is an open one. */
  lemma SlotIsOpen(s: Store, id: Id, running: set<Id>)
    requires Kept(s, running, {}) && id in running && s.pms[id].next < |s.pms[id].cbs|
    requires Turn(s, id).ful.Slot? && s.pms[id].state.Fulfilled?
    ensures var a, i := Turn(s, id).ful.a, Turn(s, id).ful.idx;
            && a < |s.alls| && i < |s.alls[a].links| == |s.alls[a].results| == |s.alls[a].inputs| && s.alls[a].left > 0
            && s.alls[a].links[i] == Linked(s.pms[id].next) && s.alls[a].inputs[i] == id
            && Turn(s, id).rej == Forward(s.alls[a].npm, false)
  {
    var a, i, j := Turn(s, id).ful.a, Turn(s, id).ful.idx, s.pms[id].next;
    assert SlotOk(s, id, j, Turn(s, id));
    assert AllOk(s, s.alls[a], false) && LinkOk(s, s.alls[a], i);
    OpenUpdate(s.alls[a].links, i);
  }

  lemma StoredAllsOk(s: Store, id: Id, a: nat, i: nat)
    requires AllsOk(s, {}) && id < |s.pms| && s.pms[id].state.Fulfilled? && s.pms[id].next < |s.pms[id].cbs|
    requires a < |s.alls| && i < |s.alls[a].links| == |s.alls[a].results| == |s.alls[a].inputs| && s.alls[a].left > 0
    requires s.alls[a].links[i] == Linked(s.pms[id].next) && s.alls[a].inputs[i] == id
    requires Turn(s, id).rej == Forward(s.alls[a].npm, false)
    ensures var s' := StoreResult(Advance(s, id), a, i, s.pms[id].state.v);
            AllsOk(s', if s'.alls[a].left == 0 then {a} else {})
  {
    hide AllOk;
    var s1 := Advance(s, id);
    var s' := StoreResult(s1, a, i, s.pms[id].state.v);
    forall b | 0 <= b < |s.alls| ensures AllOk(s', s'.alls[b], b == a && s'.alls[a].left == 0) {
      if b == a {
        StoredAll(s, id, i, s.alls[a], s'.alls[a]);
        StaysAll(s1, s', s'.alls[a], s'.alls[a].left == 0);
      } else {
        AdvanceOther(s, id, s.alls[b]);
        StaysAll(s1, s', s.alls[b], false);
      }
    }
  }

  /** An input of an `all` was fulfilled: its value is stored, and npm is about to be fulfilled if it
      was the last one. */
  lemma AdvanceStored(s: Store, id: Id, running: set<Id>)
    requires Kept(s, running, {}) && id in running && s.pms[id].next < |s.pms[id].cbs|
    requires Turn(s, id).ful.Slot? && s.pms[id].state.Fulfilled?
    ensures var a, i := Turn(s, id).ful.a, Turn(s, id).ful.idx;
            && a < |s.alls| && i < |s.alls[a].links| == |s.alls[a].results| && s.alls[a].left > 0
            && var s' := StoreResult(Advance(s, id), a, i, s.pms[id].state.v);
               && Kept(s', running, if s'.alls[a].left == 0 then {a} else {}) && Later(s, s')
               && (s'.alls[a].left == 0 ==> MaySettle(s', s'.alls[a].npm, true, List(s'.alls[a].results), {a}))
  {
    hide Wired, Traced, AllsOk, Later;
    SlotIsOpen(s, id, running);
    var a, i := Turn(s, id).ful.a, Turn(s, id).ful.idx;
    AdvanceWired(s, id);
    AdvanceTraced(s, id);
    var s1 := Advance(s, id);
    StoredWired(s, id, a, i, s1, StoreResult(s1, a, i, s.pms[id].state.v));
    StoredTraced(s1, a, i, s.pms[id].state.v);
    StoredAllsOk(s, id, a, i);
    StoredLater(s, id, a, i);
    NpmInRange(StoreResult(s1, a, i, s.pms[id].state.v), a);
  }

  lemma StoredLater(s: Store, id: Id, a: nat, i: nat)
    requires id < |s.pms| && s.pms[id].state.Fulfilled?
    requires a < |s.alls| && i < |s.alls[a].links| == |s.alls[a].results| && s.alls[a].left > 0
    requires s.alls[a].links[i].Linked?
    ensures Later(s, StoreResult(Advance(s, id), a, i, s.pms[id].state.v))
  {
  }

  lemma NpmInRange(s: Store, a: nat)
    requires a < |s.alls| && (AllsOk(s, {a}) || AllsOk(s, {}))
    ensures s.alls[a].npm < |s.pms|
  {
    assert AllOk(s, s.alls[a], true) || AllOk(s, s.alls[a], false);
  }

  lemma StoredTraced(s: Store, a: nat, i: nat, v: Value)
    requires Traced(s) && a < |s.alls| && i < |s.alls[a].links| == |s.alls[a].results| && s.alls[a].left > 0
    ensures Traced(StoreResult(s, a, i, v))
  {
  }

  lemma StoredWired(s: Store, id: Id, a: nat, i: nat, s1: Store, s': Store)
    requires Wired(s1) && a < |s1.alls| && i < |s1.alls[a].links| == |s1.alls[a].results| && s1.alls[a].left > 0
    requires id < |s.pms| && s.pms[id].next < |s.pms[id].cbs| && s1 == Advance(s, id) && s.pms[id].state.Fulfilled?
    requires s.alls[a].links[i] == Linked(s.pms[id].next) && |s.alls[a].inputs| == |s.alls[a].links|
    requires s.alls[a].inputs[i] == id
    requires s' == StoreResult(s1, a, i, s.pms[id].state.v)
    ensures Wired(s')
  {
    StaysWired(s1, s');
  }

  lemma StoredAll(s: Store, id: Id, i: nat, all: All, all': All)
    requires AllOk(s, all, false) && id < |s.pms| && s.pms[id].state.Fulfilled? && s.pms[id].next < |s.pms[id].cbs|
    requires i < |all.inputs| && all.inputs[i] == id && all.links[i] == Linked(s.pms[id].next)
    requires all.left > 0
    requires all' == all.(results := all.results[i := s.pms[id].state.v], links := all.links[i := Stored],
                          left := all.left - 1)
    ensures AllOk(Advance(s, id), all', all'.left == 0)
  {
    var s' := Advance(s, id);
    TurnOfOthers(s, id, all, i);
    OpenUpdate(all.links, i);
    OpenZero(all'.links);
    forall k | 0 <= k < |all'.inputs|
      ensures all'.inputs[k] < |s'.pms| && LinkOk(s', all', k) && (Told(s', all', k) ==> Told(s, all, k))
    {
      assert LinkOk(s, all, k);
      if k != i && all.inputs[k] == id && all.links[k] == Linked(s.pms[id].next) {
        TurnOfOthers(s, id, all, k);
      }
    }
    if all.npm !in s.touched && s.pms[all.npm].state.Rejected? {
      var r := s.pms[all.npm].state.v;
      var k :| 0 <= k < |all.inputs| && s.pms[all.inputs[k]].state == Rejected(r);
      assert s'.pms[all'.inputs[k]].state == Rejected(r);
      assert LinkOk(s', all', k);
    }
  }

  lemma AttachKeeps(s: Store, id: Id, pair: Pair, running: set<Id>)
    requires Kept(s, running, {}) && id < |s.pms| && s.pms[id].state.Pending?
    requires CallbackOk(|s.pms|, pair.ful) && CallbackOk(|s.pms|, pair.rej)
    ensures Kept(Attach(s, id, pair), running, {}) && Later(s, Attach(s, id, pair)) && Still(s, Attach(s, id, pair))
  {
    AttachWired(s, id, pair);
    var s' := Attach(s, id, pair);
    hide Wired, Traced, CallbackOk;
    forall a | 0 <= a < |s.alls| ensures AllOk(s', s.alls[a], false) {
      StaysAll(s, s', s.alls[a], false);
    }
    assert Traced(s') by {
      AttachTraced(s, id, pair);
    }
  }

  lemma AttachTraced(s: Store, id: Id, pair: Pair)
    requires Traced(s) && id < |s.pms|
    ensures Traced(Attach(s, id, pair))
  {
  }

  lemma AttachWired(s: Store, id: Id, pair: Pair)
    requires Wired(s) && id < |s.pms| && s.pms[id].state.Pending?
    requires CallbackOk(|s.pms|, pair.ful) && CallbackOk(|s.pms|, pair.rej)
    ensures Wired(Attach(s, id, pair))
  {
    StaysWired(s, Attach(s, id, pair));
  }

  /** All callbacks of id have been run. */
  lemma DrainedKeeps(s: Store, id: Id, running: set<Id>)
    requires Kept(s, running + {id}, {}) && id < |s.pms| && s.pms[id].next == |s.pms[id].cbs|
    ensures Kept(s, running, {})
  {
    hide Wired, Traced, AllsOk;
  }

  // ---- the work left ----

  lemma {:induction false} WorkUpdate(pms: seq<Promise>, id: Id, pm: Promise)
    requires id < |pms|
    ensures Work(pms[id := pm]) == Work(pms) - Effort(pms[id]) + Effort(pm)
  {
    hide Effort;
    var n := |pms| - 1;
    if id < n {
      WorkUpdate(pms[..n], id, pm);
      assert pms[id := pm][..n] == pms[..n][id := pm];
    } else {
      assert pms[id := pm][..n] == pms[..n];
    }
  }

  lemma {:induction false} WeightsSnoc(cbs: seq<Pair>, pair: Pair)
    ensures Weights(cbs + [pair]) == Weights(cbs) + PairWeight(pair)
  {
    if cbs != [] {
      WeightsSnoc(cbs[1..], pair);
      assert (cbs + [pair])[1..] == cbs[1..] + [pair];
    }
  }

  lemma MarkWork(s: Store, id: Id, st: PmState, own: bool)
    requires id < |s.pms| && s.pms[id].state.Pending? && !st.Pending?
    ensures Work(Mark(s, id, st, own).pms) == Work(s.pms) - 1
  {
    WorkUpdate(s.pms, id, s.pms[id].(state := st));
  }

  lemma AdvanceWork(s: Store, id: Id)
    requires id < |s.pms| && s.pms[id].next < |s.pms[id].cbs|
    ensures Work(Advance(s, id).pms) == Work(s.pms) - PairWeight(Turn(s, id))
  {
    var pm := s.pms[id];
    WorkUpdate(s.pms, id, pm.(next := pm.next + 1));
    assert pm.cbs[pm.next..][1..] == pm.cbs[pm.next + 1..];
  }

  lemma AttachWork(s: Store, id: Id, pair: Pair)
    requires id < |s.pms| && s.pms[id].next <= |s.pms[id].cbs|
    ensures Work(Attach(s, id, pair).pms) == Work(s.pms) + PairWeight(pair)
  {
    var pm := s.pms[id];
    WorkUpdate(s.pms, id, pm.(cbs := pm.cbs + [pair]));
    assert (pm.cbs + [pair])[pm.next..] == pm.cbs[pm.next..] + [pair];
    WeightsSnoc(pm.cbs[pm.next..], pair);
  }

  lemma NewWork(s: Store)
    ensures Work(NewPromise(s).pms) == Work(s.pms) + 1
  {
    assert NewPromise(s).pms[..|s.pms|] == s.pms;
  }

  lemma RanFrom(s: Store, s': Store, id: Id)
    requires id < |s.pms| && !s.pms[id].state.Pending?
    requires Later(s, Advance(s, id)) && Later(Advance(s, id), s') && Still(Advance(s, id), s')
    ensures Ran(s, s', id)
  {
    LaterTransitive(s, Advance(s, id), s');
  }

  /** The calls and callbacks that are noted make no difference to the rest. */
  lemma KeptNotes(s: Store, s': Store, running: set<Id>, due: set<nat>)
    requires Kept(s, running, due) && s' == s.(asked := s'.asked, done := s'.done)
    ensures Kept(s', running, due)
  {
    StaysWired(s, s');
    forall a | 0 <= a < |s'.alls| ensures AllOk(s', s'.alls[a], a in due) {
      StaysAll(s, s', s.alls[a], a in due);
    }
  }

  lemma IdInRange(s: Store, id: Id, up: bool, v: Value, due: set<nat>)
    requires MaySettle(s, id, up, v, due)
    ensures id < |s.pms|
  {
  }

  lemma NotRunning(s: Store, id: Id, running: set<Id>, due: set<nat>)
    requires Kept(s, running, due) && id < |s.pms| && s.pms[id].state.Pending?
    ensures running + {id} - {id} == running
  {
  }

  lemma NoneRun(s: Store, id: Id, running: set<Id>, due: set<nat>)
    requires Kept(s, running, due) && id < |s.pms| && s.pms[id].state.Pending?
    ensures s.pms[id].next == 0
  {
  }

  lemma InRange(s: Store, id: Id, running: set<Id>)
    requires Kept(s, running, {}) && id in running
    ensures id < |s.pms| && s.pms[id].next <= |s.pms[id].cbs| && !s.pms[id].state.Pending?
  {
  }

  // ---- making promises ----

  /** Every input of every `all` has been looked at. */
  ghost predicate Looked(s: Store) {
    forall a :: 0 <= a < |s.alls| ==> LookedAt(s.alls[a])
  }

  lemma LaterLooked(s: Store, s': Store)
    requires Looked(s) && Later(s, s')
    ensures Looked(s')
  {
    forall a | 0 <= a < |s.alls| ensures LookedAt(s'.alls[a]) {
      assert AllLater(s.alls[a], s'.alls[a]) && LookedAt(s.alls[a]);
    }
  }

  lemma NewKeeps(s: Store, running: set<Id>)
    requires Kept(s, running, {})
    ensures Kept(NewPromise(s), running, {}) && Later(s, NewPromise(s)) && Still(s, NewPromise(s))
  {
    hide Wired, Traced, AllOk;
    var s' := NewPromise(s);
    NewWired(s, s');
    NewTraced(s);
    forall a | 0 <= a < |s.alls| ensures AllOk(s', s.alls[a], false) {
      StaysAll(s, s', s.alls[a], false);
    }
  }

  lemma NewTraced(s: Store)
    requires Traced(s)
    ensures Traced(NewPromise(s))
  {
    StepsAbsent(s.trace, |s.pms|);
    assert Upto(0) == [];
  }

  lemma {:induction false} StepsAbsent(trace: seq<(Id, nat)>, p: Id)
    requires forall k :: 0 <= k < |trace| ==> trace[k].0 != p
    ensures StepsOf(trace, p) == []
  {
    if trace != [] {
      StepsAbsent(trace[..|trace| - 1], p);
    }
  }

  lemma NewWired(s: Store, s': Store)
    requires Wired(s) && s'.pms == s.pms + [Promise(Pending, [], 0)] && s.alls <= s'.alls
    ensures Wired(s')
  {
    StaysWired(s, s');
  }

  function AllOn(s: Store, inputs: seq<Id>): All {
    All(inputs, |s.pms|, |inputs|, seq(|inputs|, _ => Unit), seq(|inputs|, _ => Todo))
  }

  lemma {:induction false} AllTodo(links: seq<Link>)
    requires forall i :: 0 <= i < |links| ==> links[i].Todo?
    ensures Open(links) == |links|
  {
    if links != [] {
      AllTodo(links[..|links| - 1]);
    }
  }

  /** `all` starts with its promise and its counter. */
  lemma AllStarts(s: Store, inputs: seq<Id>, running: set<Id>)
    requires Kept(s, running, {}) && inputs != [] && forall i :: 0 <= i < |inputs| ==> inputs[i] < |s.pms|
    ensures Kept(NewPromise(s).(alls := s.alls + [AllOn(s, inputs)]), running, {})
  {
    NewKeeps(s, running);
    var s1 := NewPromise(s);
    var s' := s1.(alls := s.alls + [AllOn(s, inputs)]);
    NewWired(s, s');
    AllTodo(AllOn(s, inputs).links);
    forall a | 0 <= a < |s'.alls| ensures AllOk(s', s'.alls[a], false) {
      if a < |s.alls| {
        StaysAll(s1, s', s.alls[a], false);
        assert AllOk(s, s.alls[a], false);
      }
    }
    hide Wired, AllOk;
    assert AllsOk(s', {}) by {
      forall a | 0 <= a < |s.alls| ensures s.alls[a].npm < |s.pms| {
        NpmInRange(s, a);
      }
    }
  }

  function Relink(s: Store, a: nat, i: nat, link: Link): Store
    requires a < |s.alls| && i < |s.alls[a].links|
  {
    s.(alls := s.alls[a := s.alls[a].(links := s.alls[a].links[i := link])])
  }

  lemma {:induction false} OpenSame(links: seq<Link>, i: nat, link: Link)
    requires i < |links| && !links[i].Stored? && !link.Stored?
    ensures Open(links[i := link]) == Open(links) > 0
  {
    var n := |links| - 1;
    if i < n {
      OpenSame(links[..n], i, link);
      assert links[i := link][..n] == links[..n][i := link];
    } else {
      assert links[i := link][..n] == links[..n];
    }
  }

  ghost predicate ToLook(s: Store, a: nat, i: nat) {
    a < |s.alls| && i < |s.alls[a].inputs| == |s.alls[a].links| == |s.alls[a].results| && s.alls[a].links[i].Todo?
    && s.alls[a].inputs[i] < |s.pms|
  }

  lemma RelinkWired(s: Store, a: nat, i: nat, link: Link)
    requires Wired(s) && ToLook(s, a, i)
    ensures Wired(Relink(s, a, i, link))
  {
    StaysWired(s, Relink(s, a, i, link));
  }

  /** A pending input: both callbacks are attached. */
  function LinkTo(s: Store, a: nat, i: nat): Store
    requires ToLook(s, a, i)
  {
    var p := s.alls[a].inputs[i];
    Relink(Attach(s, p, Pair(Slot(a, i), Forward(s.alls[a].npm, false))), a, i, Linked(|s.pms[p].cbs|))
  }

  lemma LinkWired(s: Store, a: nat, i: nat)
    requires Wired(s) && ToLook(s, a, i) && s.pms[s.alls[a].inputs[i]].state.Pending?
    ensures Wired(LinkTo(s, a, i))
  {
    StaysWired(s, LinkTo(s, a, i));
  }

  lemma LinkKeeps(s: Store, a: nat, i: nat, running: set<Id>)
    requires Kept(s, running, {}) && ToLook(s, a, i) && s.pms[s.alls[a].inputs[i]].state.Pending?
    ensures Kept(LinkTo(s, a, i), running, {})
  {
    hide Wired, Traced, AllOk;
    LinkWired(s, a, i);
    var p := s.alls[a].inputs[i];
    var pair := Pair(Slot(a, i), Forward(s.alls[a].npm, false));
    var s1 := Attach(s, p, pair);
    var s' := LinkTo(s, a, i);
    AttachTraced(s, p, pair);
    forall b | 0 <= b < |s.alls| ensures AllOk(s', s'.alls[b], false) {
      StaysAll(s, s1, s.alls[b], false);
      if b == a {
        LinkAll(s1, s', s.alls[a], i, |s.pms[p].cbs|);
      } else {
        StaysAll(s1, s', s.alls[b], false);
      }
    }
    assert s'.pms == s1.pms && s'.trace == s1.trace;
    SameTraced(s1, s');
  }

  lemma SameTraced(s: Store, s': Store)
    requires Traced(s) && s'.pms == s.pms && s'.trace == s.trace && s'.touched == s.touched
    ensures Traced(s')
  {
  }

  lemma LinkAll(s: Store, s': Store, all: All, i: nat, j: nat)
    requires AllOk(s, all, false) && s'.pms == s.pms && s'.touched == s.touched
    requires i < |all.inputs| && all.links[i].Todo?
    requires var pm := s.pms[all.inputs[i]];
             pm.state.Pending? && j < |pm.cbs| && pm.cbs[j].ful.Slot? && pm.cbs[j].ful.idx == i
             && pm.cbs[j].rej == Forward(all.npm, false)
    ensures AllOk(s', all.(links := all.links[i := Linked(j)]), false)
  {
    var all' := all.(links := all.links[i := Linked(j)]);
    OpenSame(all.links, i, Linked(j));
    forall k | 0 <= k < |all.inputs| ensures LinkOk(s', all', k) && (Told(s', all', k) ==> Told(s, all, k)) {
      assert LinkOk(s, all, k);
    }
  }

  /** An input that is fulfilled already. */
  lemma FulfilledKeeps(s: Store, a: nat, i: nat, running: set<Id>)
    requires Kept(s, running, {}) && ToLook(s, a, i) && s.pms[s.alls[a].inputs[i]].state.Fulfilled?
    ensures s.alls[a].left > 0
    ensures var s' := StoreResult(s, a, i, s.pms[s.alls[a].inputs[i]].state.v);
            && Kept(s', running, if s'.alls[a].left == 0 then {a} else {})
            && (s'.alls[a].left == 0 ==> MaySettle(s', s'.alls[a].npm, true, List(s'.alls[a].results), {a}))
  {
    hide Wired, Traced, AllOk;
    StillOpen(s, a, i);
    var v := s.pms[s.alls[a].inputs[i]].state.v;
    var s' := StoreResult(s, a, i, v);
    RelinkWired(s, a, i, Stored);
    ResultsWired(Relink(s, a, i, Stored), s');
    StoredTraced(s, a, i, v);
    NpmInRange(s, a);
    forall b | 0 <= b < |s.alls| ensures AllOk(s', s'.alls[b], b == a && s'.alls[a].left == 0) {
      if b == a {
        StoreAll(s, s', s.alls[a], i, v);
      } else {
        StaysAll(s, s', s.alls[b], false);
      }
    }
  }

  lemma StillOpen(s: Store, a: nat, i: nat)
    requires AllsOk(s, {}) && ToLook(s, a, i)
    ensures s.alls[a].left > 0
  {
    assert AllOk(s, s.alls[a], false);
    OpenUpdate(s.alls[a].links, i);
  }

  lemma ResultsWired(s: Store, s': Store)
    requires Wired(s) && s'.pms == s.pms && |s'.alls| == |s.alls|
    requires forall b :: 0 <= b < |s.alls| ==>
               && s'.alls[b].links == s.alls[b].links && s'.alls[b].inputs == s.alls[b].inputs
               && s'.alls[b].npm == s.alls[b].npm
    ensures Wired(s')
  {
    StaysWired(s, s');
  }

  lemma StoreAll(s: Store, s': Store, all: All, i: nat, v: Value)
    requires AllOk(s, all, false) && s'.pms == s.pms && s'.touched == s.touched
    requires i < |all.inputs| && all.links[i].Todo? && all.left > 0
    requires s.pms[all.inputs[i]].state == Fulfilled(v)
    ensures var all' := all.(results := all.results[i := v], links := all.links[i := Stored], left := all.left - 1);
            AllOk(s', all', all'.left == 0)
  {
    var all' := all.(results := all.results[i := v], links := all.links[i := Stored], left := all.left - 1);
    OpenUpdate(all.links, i);
    OpenZero(all'.links);
    forall k | 0 <= k < |all.inputs| ensures LinkOk(s', all', k) && (Told(s', all', k) ==> Told(s, all, k)) {
      assert LinkOk(s, all, k);
    }
  }

  /** An input that is rejected already. */
  lemma LostKeeps(s: Store, a: nat, i: nat, running: set<Id>)
    requires Kept(s, running, {}) && ToLook(s, a, i) && s.pms[s.alls[a].inputs[i]].state.Rejected?
    ensures var s' := Relink(s, a, i, Lost);
            Kept(s', running, {a}) && MaySettle(s', s.alls[a].npm, false, s.pms[s.alls[a].inputs[i]].state.v, {a})
  {
    hide Wired, Traced, AllOk;
    RelinkWired(s, a, i, Lost);
    var s' := Relink(s, a, i, Lost);
    SameTraced(s, s');
    NpmInRange(s, a);
    forall b | 0 <= b < |s.alls| ensures AllOk(s', s'.alls[b], b == a) {
      if b == a {
        LostAll(s, s', s.alls[a], i);
      } else {
        StaysAll(s, s', s.alls[b], false);
      }
    }
    assert s'.pms[s'.alls[a].inputs[i]].state == Rejected(s.pms[s.alls[a].inputs[i]].state.v);
  }

  lemma LostAll(s: Store, s': Store, all: All, i: nat)
    requires AllOk(s, all, false) && s'.pms == s.pms && s'.touched == s.touched
    requires i < |all.inputs| && all.links[i].Todo?
    requires s.pms[all.inputs[i]].state.Rejected?
    ensures AllOk(s', all.(links := all.links[i := Lost]), true)
  {
    var all' := all.(links := all.links[i := Lost]);
    OpenSame(all.links, i, Lost);
    forall k | 0 <= k < |all.inputs| ensures LinkOk(s', all', k) {
      assert LinkOk(s, all, k);
    }
  }

  /** Later, but nothing is said about the `all` number a. */
  ghost predicate LaterBut(s: Store, s': Store, a: nat) {
    && |s.pms| <= |s'.pms| && |s.alls| <= |s'.alls|
    && (forall p :: 0 <= p < |s.pms| ==>
          && (!s.pms[p].state.Pending? ==> s'.pms[p].state == s.pms[p].state && s'.pms[p].cbs == s.pms[p].cbs)
          && s.pms[p].cbs <= s'.pms[p].cbs)
    && (forall b :: 0 <= b < |s.alls| && b != a ==> AllLater(s.alls[b], s'.alls[b]))
    && (forall b :: |s.alls| <= b < |s'.alls| && b != a ==> LookedAt(s'.alls[b]))
    && s.trace <= s'.trace && s.touched <= s'.touched && s.asked <= s'.asked && s.done <= s'.done
  }

  lemma LaterButTransitive(r: Store, s: Store, s': Store, a: nat)
    requires LaterBut(r, s, a) && (LaterBut(s, s', a) || Later(s, s'))
    ensures LaterBut(r, s', a)
  {
    forall b | 0 <= b < |r.alls| && b != a ensures AllLater(r.alls[b], s'.alls[b]) {
      assert AllLater(r.alls[b], s.alls[b]) && AllLater(s.alls[b], s'.alls[b]);
    }
    forall b | |r.alls| <= b < |s'.alls| && b != a ensures LookedAt(s'.alls[b]) {
      if b < |s.alls| {
        assert LookedAt(s.alls[b]) && AllLater(s.alls[b], s'.alls[b]);
      }
    }
  }

  /** The first n inputs have been looked at. */
  ghost predicate Looking(all: All, n: nat) {
    forall i :: 0 <= i < |all.links| ==> (all.links[i].Todo? <==> i >= n)
  }

  /** Input i of the `all` number a has been looked at, and then things went on. */
  lemma OneLooked(s: Store, s1: Store, s': Store, a: nat, i: nat)
    requires a < |s.alls| && i < |s.alls[a].links| && Looking(s.alls[a], i) && Later(s1, s') && Still(s1, s')
    requires s1.pms == s.pms && s1.trace == s.trace && s1.touched == s.touched && |s1.alls| == |s.alls|
    requires s1.asked == s.asked && s1.done == s.done
    requires forall b :: 0 <= b < |s.alls| && b != a ==> s1.alls[b] == s.alls[b]
    requires s1.alls[a].inputs == s.alls[a].inputs && s1.alls[a].npm == s.alls[a].npm
    requires |s1.alls[a].links| == |s.alls[a].links| && !s1.alls[a].links[i].Todo?
    requires s1.alls[a].links == s.alls[a].links[i := s1.alls[a].links[i]]
    ensures LaterBut(s, s', a) && Still(s, s')
    ensures s'.alls[a].inputs == s.alls[a].inputs && s'.alls[a].npm == s.alls[a].npm
    ensures |s'.alls[a].links| == |s.alls[a].links| && Looking(s'.alls[a], i + 1)
  {
    assert AllLater(s1.alls[a], s'.alls[a]);
  }

  lemma WhatToLook(s: Store, a: nat, i: nat, running: set<Id>)
    requires Kept(s, running, {}) && a < |s.alls| && i < |s.alls[a].links| && s.alls[a].links[i].Todo?
    ensures ToLook(s, a, i)
  {
    assert AllOk(s, s.alls[a], false);
  }
}
