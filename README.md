# miniVue reactivity engine in Dafny

miniVue is a small reactive binding framework. Its `data` factory returns a
plain object. `observe` turns every top-level property of that object into
a getter/setter pair. Each pair closes over the property's value and its own
dependency list (`Dep`). A `Watcher` subscribes to one property. It does this
by becoming the global tracking target `Dep.target`, reading the property
once, and clearing the target again. After that, every write to the
property runs every subscribed watcher's callback, in registration order,
with the written value. A write runs them even when the value did not change.

This project models that engine as classes whose fields change in place,
plus the pure attribute-name helpers of the template binder:

- `reactivity.dfy`, module `Reactivity`:
  - `Dep` holds a subscriber list with `AddSub` and `Notify`.
  - `Watcher` has the constructor that does the tracked read, and `Update`.
  - `TrackingSlot` is `Dep.target`.
  - `Store` is the observed `$data` object, with `Observe`, `Get` (the getter)
    and `Set` (the setter).
  - `InitState` initialises a store's data.
  - `Calls` is the sequence of callback runs that one notification performs,
    with lemmas about it.
- `template.dfy`, module `Template`: JavaScript's `indexOf` and one-argument
  `substring`, `isDirective`, `isEvent`, and the names cut out of directive
  and event attributes.
- `scenarios.dfy`, module `Scenarios`: client methods that build small pages
  the way the binder does and prove what they observe: first render, isolation
  between properties, unconditional notification, untracked reads, two-way
  binding, an unobserved property, and registration order for any number of
  bindings.

Modelling choices:

- A watcher's callback is a DOM write. Here it appends `(watcher, value)` to
  `Page.log`, so the log records which callbacks ran, in what order, and with
  which value.
- `Store.values` holds the values the accessor pairs close over. `Store.deps`
  holds each observed property's `Dep`. `Store.plain` holds properties that
  have no accessors. Those are keys assigned after `observe`, for example by a
  `h-model` input bound to a name the data never had.
  `Get` on a missing key returns `Undefined`.
- `Store.Valid()` is the invariant that holds between operations:
  - every observed property has its own `Dep`, distinct from every other;
  - every watcher in a property's list was constructed for that property
    (`Watcher.exp`, a ghost field: the source's watcher does not keep its
    property);
  - the tracking slot is empty.
- Values are a datatype: `undefined`, `null`, booleans, integers, strings,
  and objects by reference. On this domain, JavaScript's `!==` is Dafny's `!=`.
- The "is a function" test on the `data` option is the input flag
  `dataIsFunction` of `InitState`. The factory's result is the input
  `produced`.
- Two behaviours of the source worth noting:
  - A `data` option that is not a function is only logged, and there is no
    data object. `InitState` returns `None` and does not fail.
  - The watcher does not store its property. It only stores its callback.

## Model

| member | source | states |
|---|---|---|
| `Reactivity.Dep.constructor` | miniVue.js:133-135 | a new Dep has an empty subscriber list |
| `Reactivity.Dep.AddSub` | miniVue.js:136-138 | the subscriber is appended at the end of the list; nothing is de-duplicated |
| `Reactivity.Dep.Notify` | miniVue.js:139-143 | the page log grows by exactly one entry per subscriber, in list order, each with the notified value; the list itself is unchanged |
| `Reactivity.CallsAt` | miniVue.js:139-143 | a notification runs as many callbacks as there are subscribers, and the i-th run is subscriber i's callback with the new value |
| `Reactivity.CallsAppend` | miniVue.js:140-142 | notifying a list runs its prefix's callbacks and then its suffix's, which is what lets later subscribers run after earlier ones |
| `Reactivity.CallsTargetKey` | miniVue.js:139-143 | if every subscriber was built for property k, every callback run by the notification belongs to a watcher of k and carries the new value |
| `Reactivity.TrackingSlot.constructor` | miniVue.js:147-149 | the tracking slot starts empty |
| `Reactivity.Watcher.constructor` | miniVue.js:146-151 | building a watcher on an observed property appends it exactly once to that property's list and to no other list; on a property with no getter nothing is registered; the slot is empty afterwards and the store invariant holds |
| `Reactivity.Watcher.TrackedRead` | miniVue.js:147-149 | set the slot, read once, clear the slot: the reader's list gains this watcher at the end, other lists and the data object are unchanged, and the slot is empty again |
| `Reactivity.Watcher.Update` | miniVue.js:152-154 | the callback runs once with the value given, without comparing it to anything |
| `Reactivity.Store.constructor` | miniVue.js:16-17 | the factory's result is a plain object: every key is plain, none has a Dep yet |
| `Reactivity.Store.Observe` | miniVue.js:23-42 | every key keeps its initial value, becomes observed and gets a fresh Dep with an empty list; distinct keys get distinct Deps; no key stays plain |
| `Reactivity.Store.Get` | miniVue.js:30-34 | returns the stored value (plain value, or undefined for a missing key); with no target, no list changes; with a target and an observed key, the target is appended to that key's list only; the data object is unchanged |
| `Reactivity.Store.Set` | miniVue.js:35-39 | on an observed key the stored value becomes the written value whether or not it differed, and every subscriber of that key runs once, in order, with it; only watchers of that key run; an unobserved key just gets a plain value and no callback runs; the invariant is kept |
| `Reactivity.InitState` | miniVue.js:14-22 | when `data` is a function its result is observed, so every key keeps its value and gets an empty list; otherwise there is no data object |
| `Template.IndexOfFrom` | miniVue.js:88 | the result is -1 or an index at or after `from` (clamped to the length) where the pattern occurs; there is no earlier occurrence at or after it |
| `Template.IndexOf` | miniVue.js:87-92 | the result is -1 exactly when the pattern occurs nowhere; otherwise it is the first index where it occurs |
| `Template.Substring` | miniVue.js:78 | the result is what follows the first `start` characters; a start at or beyond the end gives "" |
| `Template.IsDirective` | miniVue.js:87-89 | true exactly when the attribute name starts with `h-` |
| `Template.IsEvent` | miniVue.js:90-92 | true exactly when the attribute name starts with `@` |
| `Template.NotBoth` | miniVue.js:76-84 | no attribute name passes both tests, so the two independent tests never both fire |
| `Template.DirectiveName` | miniVue.js:78 | for a directive attribute, `h-` followed by the result is the attribute name; names of two characters or fewer give "" |
| `Template.EventName` | miniVue.js:82 | for an event attribute, `@` followed by the result is the attribute name; names of one character or fewer give "" |
| `Scenarios.TextBinding` | miniVue.js:53-59 | with data `{msg: "hi", count: 0}` and a text binding on each key, the two returned watchers are distinct and watch `msg` and `count`; the first render reads "hi"; writing "bye" to `msg` runs only the `msg` binding, once, with "bye" |
| `Scenarios.SameValueWrite` | miniVue.js:35-39 | with `x` first read as 1, writing 1 again still runs its binding (a watcher of `x`) once with that value, and the value is unchanged |
| `Scenarios.UntrackedReads` | miniVue.js:30-34 | five reads outside watcher construction all return the value and leave zero subscribers |
| `Scenarios.TwoWayBinding` | miniVue.js:99-112 | a `h-model` binding and a text binding on one key, two distinct watchers of `exp`: an input event carrying "abc" stores "abc" and runs the input's binding and then the text binding, both with "abc" |
| `Scenarios.UnobservedProperty` | miniVue.js:146-149 | a watcher built on a key the data never had is registered on no list (the only observed key, `msg`, keeps zero subscribers); writing the key creates a plain property with that value and runs no callback |
| `Scenarios.RegistrationOrder` | miniVue.js:49-60 | n bindings made one after another on one key give n distinct fresh watchers of `x`; after one write there are exactly n callback runs, the i-th being binding i's with the written value |

## Left out

- Template walking is left out because it is browser I/O: `compile`,
  `compileNodes`, `compileElement`, `document.querySelector`, `childNodes`,
  `attributes` and `nodeType`. For each binding the scenarios make the calls
  the binder makes: a first read for the initial render, then one `Watcher`.
- The interpolation regular expression and the legacy `RegExp.$1` global are
  left out. The scenarios use the property name the regex would capture.
- The updaters `textUpdater`, `htmlUpdater` and `modelUpdater` write to the
  DOM. Each callback is modelled as one entry in `Page.log`.
- Dispatch by name (`this[dir]`, `this[dir + 'Updater']`) is not modelled, so
  unknown directives are not modelled either. `DirectiveName` gives the name
  that would be looked up.
- The `input` listener of `model` and `eventHandler` are not modelled: they
  call `addEventListener` and `bind`. An input event is modelled as a plain
  `Store.Set`. In `eventHandler`, `if (eName, fn)` is a comma expression, so
  only `fn` is tested. That code is not part of this model.
- `console.log` in the getter and `console.error` in `initState` are left
  out. They have no effect on the reactive state.
- The `created` hook is left out as a call. It runs user code on the
  instance after compilation; its reads and writes of `$data` are ordinary
  `Store.Get` and `Store.Set` calls, so a write there notifies as any other.
- The JavaScript type test `Object.prototype.toString` is the input flag
  `dataIsFunction`. Calling the `data` factory is the input `produced`.
- `InitState`: `produced` is always a plain object. A factory returning
  `null`, `undefined` or a primitive is not modelled. In the source,
  `Object.keys` throws on `null` and `undefined`, and `Object.defineProperty`
  throws on the keys of a non-empty string. A number or boolean has no keys,
  so nothing is observed.
- `Template.Substring`: indices count Unicode scalar values, not UTF-16 code
  units, so the result equals JavaScript's `substring` only when the removed
  prefix has no character outside the Basic Multilingual Plane. The prefixes
  removed by `DirectiveName` and `EventName` are the ASCII `h-` and `@`.
- `Template.IndexOf`: for the same reason an index equals JavaScript's only
  when no astral character precedes it. `IsDirective` and `IsEvent` compare
  it with 0, where the two agree.
- Exceptions thrown by a callback are left out. In the source, such an
  exception stops `notify` before the remaining subscribers run. The modelled
  callbacks cannot fail.
- Floating-point numbers are left out: `NaN !== NaN` holds, and `0 === -0`
  holds. Writing `-0` over `0` keeps `0` while the watchers receive `-0`. With
  integers only, `Store.Set` can state that the stored value equals the
  written one.
- The prototype chain is left out. A key such as `toString` is read as
  missing (`Undefined`). In JavaScript it would find an inherited property.
- Deep observation is not modelled, because the source does not observe
  nested objects. An object value is an opaque reference.
- `Store.Observe` requires a data object that was never observed, and the
  model gives every store its own object. In the source nothing makes `data()`
  return a new object. A factory that returns one shared object has it
  observed again by each new instance. That second `observe` reads each value
  through the first getter and then replaces the configurable accessor pair.
  The earlier instance's `Dep`s are then never reached again, so its bindings
  are silenced. This case is not modelled.
- `Dep.target` is a single static slot in the source. The model reaches it
  through `Store.slot` and assumes that callers give all stores of a page the
  same `TrackingSlot`. `Store`'s constructor and `InitState` accept any slot,
  and nothing proved depends on the stores sharing one.
- A watcher built on an instance whose data failed to initialise would throw
  in the source. The model has no such store.
