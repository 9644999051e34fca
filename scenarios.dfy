/**
  Pages built from the reactivity engine the way the template binder uses
  it: an initial read for the first render, one watcher per binding, and
  writes from code or from input events.
 */
module Scenarios {
  import opened Reactivity

  /**
    Data `{ msg: "hi", count: 0 }` with a text binding on each property.
    The first render shows "hi"; writing "bye" to `msg` runs the `msg`
    binding once with "bye" and leaves the `count` binding alone.
   */
  method TextBinding() returns (shown: Value, w: Watcher, other: Watcher, log: seq<(Watcher, Value)>)
    ensures w.exp == "msg" && other.exp == "count" && w != other
    ensures shown == Str("hi")
    ensures log == [(w, Str("bye"))]
  {
    var slot := new TrackingSlot();
    var data := InitState(true, map["msg" := Str("hi"), "count" := Number(0)], slot);
    var vm := data.value;
    assert "msg" in vm.deps && "count" in vm.deps && vm.deps["msg"].subs == [];
    shown := vm.Get("msg");
    w := new Watcher(vm, "msg");
    var shownCount := vm.Get("count");
    other := new Watcher(vm, "count");
    assert vm.deps["msg"].subs == [w];
    assert Calls([w], Str("bye")) == [(w, Str("bye"))];
    var page := new Page();
    vm.Set("msg", Str("bye"), page);
    log := page.log;
  }

  /**
    Data `{ x: 1 }` with one binding on `x`. Writing 1 again still runs the
    binding once with 1, and the value stays 1.
   */
  method SameValueWrite() returns (shown: Value, w: Watcher, stored: Value, log: seq<(Watcher, Value)>)
    ensures w.exp == "x"
    ensures shown == Number(1) && stored == Number(1)
    ensures log == [(w, Number(1))]
  {
    var slot := new TrackingSlot();
    var data := InitState(true, map["x" := Number(1)], slot);
    var vm := data.value;
    shown := vm.Get("x");
    w := new Watcher(vm, "x");
    var page := new Page();
    vm.Set("x", Number(1), page);
    log := page.log;
    stored := vm.Get("x");
  }

  /**
    Data `{ x: 1 }` read five times while no watcher is being constructed:
    every read gives 1 and `x` still has no subscriber.
   */
  method UntrackedReads() returns (readValues: seq<Value>, subscribers: nat)
    ensures |readValues| == 5 && forall i :: 0 <= i < 5 ==> readValues[i] == Number(1)
    ensures subscribers == 0
  {
    var slot := new TrackingSlot();
    var data := InitState(true, map["x" := Number(1)], slot);
    var vm := data.value;
    readValues := [];
    for i := 0 to 5
      invariant vm.Valid() && forall k :: k in vm.deps ==> fresh(vm.deps[k])
      invariant vm.values == map["x" := Number(1)] && "x" in vm.deps && vm.deps["x"].subs == []
      invariant |readValues| == i && forall j :: 0 <= j < i ==> readValues[j] == Number(1)
    {
      var r := vm.Get("x");
      readValues := readValues + [r];
    }
    subscribers := |vm.deps["x"].subs|;
  }

  /**
    Data `{ exp: "" }` with a two-way `h-model` binding on an input and a
    text binding on `exp`. An input event carrying "abc" stores "abc" and
    runs both bindings with it, the input's first.
   */
  method TwoWayBinding() returns (input: Watcher, text: Watcher, stored: Value, log: seq<(Watcher, Value)>)
    ensures input.exp == "exp" && text.exp == "exp" && input != text
    ensures stored == Str("abc")
    ensures log == [(input, Str("abc")), (text, Str("abc"))]
  {
    var slot := new TrackingSlot();
    var data := InitState(true, map["exp" := Str("")], slot);
    var vm := data.value;
    var initial := vm.Get("exp");
    input := new Watcher(vm, "exp");
    var initialText := vm.Get("exp");
    text := new Watcher(vm, "exp");
    assert vm.deps["exp"].subs == [input, text];
    // the input listener writes the control's value back
    var page := new Page();
    vm.Set("exp", Str("abc"), page);
    log := page.log;
    CallsAt([input, text], Str("abc"));
    stored := vm.Get("exp");
  }

  /**
    A binding on a property the data never had: there is no getter, so the
    watcher is not registered, and an input event on it just creates a
    plain property without running any binding.
   */
  method UnobservedProperty() returns (before: Value, w: Watcher, registered: nat, after: Value, log: seq<(Watcher, Value)>)
    ensures w.exp == "missing" && registered == 0
    ensures before == Undefined && after == Str("abc")
    ensures log == []
  {
    var slot := new TrackingSlot();
    var data := InitState(true, map["msg" := Str("hi")], slot);
    var vm := data.value;
    before := vm.Get("missing");
    w := new Watcher(vm, "missing");
    registered := |vm.deps["msg"].subs|;
    var page := new Page();
    vm.Set("missing", Str("abc"), page);
    log := page.log;
    after := vm.Get("missing");
  }

  /**
    `n` bindings on `x`, made in document order, then one write: the
    bindings run once each, in the order they were made, with the written
    value.
   */
  method RegistrationOrder(n: nat, v: Value) returns (ws: seq<Watcher>, log: seq<(Watcher, Value)>)
    ensures |ws| == n && |log| == n
    ensures forall i :: 0 <= i < n ==> ws[i].exp == "x" && fresh(ws[i])
    ensures forall i, j :: 0 <= i < j < n ==> ws[i] != ws[j]
    ensures forall i :: 0 <= i < n ==> log[i] == (ws[i], v)
  {
    var slot := new TrackingSlot();
    var data := InitState(true, map["x" := Number(0)], slot);
    var vm := data.value;
    ws := [];
    for i := 0 to n
      invariant vm.Valid() && forall k :: k in vm.deps ==> fresh(vm.deps[k])
      invariant "x" in vm.deps && vm.deps["x"].subs == ws && |ws| == i
      invariant forall j :: 0 <= j < i ==> ws[j].exp == "x" && fresh(ws[j])
      invariant forall j, l :: 0 <= j < l < i ==> ws[j] != ws[l]
    {
      var shown := vm.Get("x");
      var w := new Watcher(vm, "x");
      ws := ws + [w];
    }
    var page := new Page();
    vm.Set("x", v, page);
    log := page.log;
    CallsAt(ws, v);
  }
}
