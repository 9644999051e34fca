/**
  The reactivity engine of miniVue: per-property dependency lists (Dep),
  watchers that register themselves by one tracked read (Watcher), and the
  observed data object whose accessors track reads and notify on writes
  (Store).
 */
module Reactivity {

  /** A property name of the data object. */
  type Key = string

  /**
    The values a property can hold. Objects and arrays are compared by
    reference, which `Obj(id)` gives: two of them are equal exactly when
    they are the same object. Numbers are integers, so strict inequality
    (`!==`) on this domain is Dafny's `!=`.
   */
  datatype Value =
    | Undefined
    | Null
    | Bool(b: bool)
    | Number(n: int)
    | Str(s: string)
    | Obj(id: nat)

  datatype Option<T> = None | Some(value: T)

  /**
    The page the bindings write to. Every run of a watcher's callback is
    recorded as one entry: the watcher whose callback ran and the value it
    was given.
   */
  class Page {
    var log: seq<(Watcher, Value)>

    constructor ()
      ensures log == []
    {
      log := [];
    }
  }

  /** The callback runs that notifying `subs` with value `v` performs, in order. */
  function Calls(subs: seq<Watcher>, v: Value): seq<(Watcher, Value)>
  {
    if subs == [] then [] else [(subs[0], v)] + Calls(subs[1..], v)
  }

  /** Notifying runs each subscriber's callback once, in list order, with `v`. */
  lemma {:induction false} CallsAt(subs: seq<Watcher>, v: Value)
    ensures |Calls(subs, v)| == |subs|
    ensures forall i :: 0 <= i < |subs| ==> Calls(subs, v)[i] == (subs[i], v)
  {
    if subs != [] {
      CallsAt(subs[1..], v);
      assert forall i :: 1 <= i < |subs| ==> Calls(subs, v)[i] == Calls(subs[1..], v)[i - 1];
    }
  }

  /** Notifying a list made of two parts runs the first part's callbacks, then the second's. */
  lemma {:induction false} CallsAppend(a: seq<Watcher>, b: seq<Watcher>, v: Value)
    ensures Calls(a + b, v) == Calls(a, v) + Calls(b, v)
  {
    if a == [] {
      assert a + b == b;
    } else {
      assert (a + b)[1..] == a[1..] + b;
      CallsAppend(a[1..], b, v);
    }
  }

  /** Every watcher in `ws` was constructed for property `k`. */
  ghost predicate TargetsKey(ws: seq<Watcher>, k: Key)
  {
    forall i :: 0 <= i < |ws| ==> ws[i].exp == k
  }

  /** Notifying a list of watchers of `k` only runs callbacks of watchers of `k`. */
  lemma CallsTargetKey(subs: seq<Watcher>, k: Key, v: Value)
    requires TargetsKey(subs, k)
    ensures forall i :: 0 <= i < |Calls(subs, v)| ==> Calls(subs, v)[i].0.exp == k && Calls(subs, v)[i].1 == v
  {
    CallsAt(subs, v);
  }

  /**
    The single tracking slot `Dep.target`: the watcher under construction,
    if any. All data objects of the page share it.
   */
  class TrackingSlot {
    var target: Option<Watcher>

    constructor ()
      ensures target == None
    {
      target := None;
    }
  }

  /**
    A subscriber. Its callback is the binding's update action; here it
    records its run on the page. `exp` is the property it was constructed
    for.
   */
  class Watcher {
    ghost const exp: Key

    /**
      Construction stores the property and performs the tracked read of
      `vm.$data[exp]`.
     */
    constructor (vm: Store, exp: Key)
      requires vm.Valid()
      modifies vm.slot, if exp in vm.deps then {vm.deps[exp]} else {}
      ensures this.exp == exp
      ensures vm.Valid() && unchanged(vm)
      ensures exp in vm.deps ==> vm.deps[exp].subs == old(vm.deps[exp].subs) + [this]
      ensures forall k :: k in vm.deps && k != exp ==> vm.deps[k].subs == old(vm.deps[k].subs)
    {
      this.exp := exp;
      new;
      TrackedRead(vm, exp);
    }

    /**
      Makes this watcher the tracking target, reads `vm.$data[exp]` once
      (discarding the value), and clears the target again.
     */
    method TrackedRead(vm: Store, exp: Key)
      requires vm.Valid() && exp == this.exp
      modifies vm.slot, if exp in vm.deps then {vm.deps[exp]} else {}
      ensures vm.Valid() && unchanged(vm)
      ensures exp in vm.deps ==> vm.deps[exp].subs == old(vm.deps[exp].subs) + [this]
    {
      vm.slot.target := Some(this);
      var discarded := vm.Get(exp);
      vm.slot.target := None;
      if exp in vm.deps {
        assert TargetsKey(vm.deps[exp].subs, exp);
      }
    }

    /** Forwards the notified value to the callback. */
    method Update(newVal: Value, page: Page)
      modifies page
      ensures page.log == old(page.log) + [(this, newVal)]
    {
      page.log := page.log + [(this, newVal)];
    }
  }

  /** The subscriber list of one property. */
  class Dep {
    var subs: seq<Watcher>

    constructor ()
      ensures subs == []
    {
      subs := [];
    }

    method AddSub(sub: Watcher)
      modifies this
      ensures subs == old(subs) + [sub]
    {
      subs := subs + [sub];
    }

    /** Runs every subscriber's update with `newVal`, in registration order. */
    method Notify(newVal: Value, page: Page)
      modifies page
      ensures subs == old(subs)
      ensures page.log == old(page.log) + Calls(subs, newVal)
    {
      var i := 0;
      while i < |subs|
        invariant 0 <= i <= |subs|
        invariant page.log == old(page.log) + Calls(subs[..i], newVal)
      {
        CallsAppend(subs[..i], [subs[i]], newVal);
        assert subs[..i + 1] == subs[..i] + [subs[i]];
        subs[i].Update(newVal, page);
        i := i + 1;
      }
      assert subs[..i] == subs;
    }
  }

  /**
    The data object `$data`. Observed properties keep their value in
    `values` (the value each accessor pair closes over) and own the Dep in
    `deps`; properties without accessors (written after observation) are in
    `plain`. `slot` is the page's tracking slot.
   */
  class Store {
    var values: map<Key, Value>
    var deps: map<Key, Dep>
    var plain: map<Key, Value>
    const slot: TrackingSlot

    /** The shape of the object: every observed property has its own Dep. */
    ghost predicate Wf()
      reads this
    {
      && deps.Keys == values.Keys
      && deps.Keys !! plain.Keys
      && forall k1, k2 :: k1 in deps && k2 in deps && k1 != k2 ==> deps[k1] != deps[k2]
    }

    /** Every subscriber of a property was constructed for that property. */
    ghost predicate Consistent()
      reads this, deps.Values
    {
      forall k :: k in deps ==> TargetsKey(deps[k].subs, k)
    }

    /** The invariant between operations: well formed, consistent, no tracking target. */
    ghost predicate Valid()
      reads this, deps.Values, slot
    {
      Wf() && Consistent() && slot.target == None
    }

    /** The plain object the data factory returned, not yet observed. */
    constructor (data: map<Key, Value>, slot: TrackingSlot)
      requires slot.target == None
      ensures Valid()
      ensures values == map[] && deps == map[] && plain == data && this.slot == slot
    {
      values, deps, plain, this.slot := map[], map[], data, slot;
    }

    /**
      Gives every property of the plain object an accessor pair closing
      over its initial value and a fresh, empty Dep.
     */
    method Observe()
      requires Valid() && deps == map[]
      modifies this
      ensures Valid() && values == old(plain) && plain == map[]
      ensures forall k :: k in deps ==> fresh(deps[k]) && deps[k].subs == []
    {
      var keys := plain.Keys;
      while keys != {}
        invariant keys <= plain.Keys && plain == old(plain)
        invariant deps.Keys == values.Keys == plain.Keys - keys
        invariant forall k :: k in values ==> values[k] == plain[k]
        invariant forall k :: k in deps ==> fresh(deps[k]) && deps[k].subs == []
        invariant forall k1, k2 :: k1 in deps && k2 in deps && k1 != k2 ==> deps[k1] != deps[k2]
        decreases keys
      {
        var key :| key in keys;
        var dep := new Dep();
        values := values[key := plain[key]];
        deps := deps[key := dep];
        keys := keys - {key};
      }
      plain := map[];
    }

    /**
      Reads `$data[k]`. On an observed property the getter registers the
      tracking target, if one is set, and returns the captured value; a
      plain property is returned as it is; a missing one is undefined.
     */
    method Get(k: Key) returns (r: Value)
      requires Wf()
      modifies if k in deps then {deps[k]} else {}
      ensures Wf() && unchanged(this)
      ensures old(Valid()) ==> Valid()
      ensures r == if k in values then values[k] else if k in plain then plain[k] else Undefined
      ensures k in deps && slot.target.Some? ==> deps[k].subs == old(deps[k].subs) + [slot.target.value]
      ensures k in deps && slot.target.None? ==> deps[k].subs == old(deps[k].subs)
      ensures forall k' :: k' in deps && k' != k ==> deps[k'].subs == old(deps[k'].subs)
    {
      if k in deps {
        if slot.target.Some? {
          deps[k].AddSub(slot.target.value);
        }
        r := values[k];
      } else if k in plain {
        r := plain[k];
      } else {
        r := Undefined;
      }
    }

    /**
      Writes `$data[k] := v`. On an observed property the setter stores `v`
      when it differs from the captured value and then notifies the Dep
      whether it differed or not; a property without accessors is simply
      assigned.
     */
    method Set(k: Key, v: Value, page: Page)
      requires Valid()
      modifies this, page
      ensures Valid() && deps == old(deps)
      ensures k in old(deps) ==> values == old(values)[k := v] && plain == old(plain)
      ensures k in old(deps) ==> page.log == old(page.log) + Calls(deps[k].subs, v)
      ensures k !in old(deps) ==> values == old(values) && plain == old(plain)[k := v]
      ensures k !in old(deps) ==> page.log == old(page.log)
      ensures forall i :: |old(page.log)| <= i < |page.log| ==> page.log[i].0.exp == k && page.log[i].1 == v
    {
      if k in deps {
        if v != values[k] {
          values := values[k := v];
        }
        assert values == old(values)[k := v];
        CallsTargetKey(deps[k].subs, k, v);
        deps[k].Notify(v, page);
      } else {
        plain := plain[k := v];
      }
    }
  }

  /**
    Initialises the data of a miniVue instance. Only when the `data` option
    is a function is its result (`produced`) taken and observed; otherwise
    there is no data object.
   */
  method InitState(dataIsFunction: bool, produced: map<Key, Value>, slot: TrackingSlot)
    returns (data: Option<Store>)
    requires slot.target == None
    ensures data.Some? <==> dataIsFunction
    ensures data.Some? ==> fresh(data.value) && data.value.Valid() && data.value.slot == slot
    ensures data.Some? ==> forall k :: k in data.value.deps ==> fresh(data.value.deps[k]) && data.value.deps[k].subs == []
    ensures data.Some? ==> data.value.values == produced && data.value.plain == map[]
  {
    if dataIsFunction {
      var store := new Store(produced, slot);
      store.Observe();
      data := Some(store);
    } else {
      data := None;
    }
  }
}
