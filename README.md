# State-model engine of uform, in Dafny

This project models the generic state container behind uform's form fields.
`createStateModel(Factory)` returns a class that holds a field's `state`, its
merged `props`, a dirty map with a dirty counter `dirtyNum`, an ordered list of
subscribers and a `batching` flag. It updates them through `subscribe`,
`unsubscribe`, `batch`, `notify`, `getState`, `unsafe_getSourceState`,
`unsafe_setSourceState`, `setState`, `hasChanged` and `getChanged`. The project
also models the `VFieldState` controller (a virtual field), a concrete factory
for that engine.

Files:

- `values.dfy` (module `Values`): the value domain. State, props and dirty maps
  are finite maps. `isEqual` is `==` and `clone` is the identity, because values
  are immutable.
- `model.dfy` (module `SharedModel`): the engine. For each operation there is a
  pure specification function over the abstract value `Engine`. The class
  `Model` has the fields of the source class plus a ghost log of subscriber
  calls. Each of its methods is proved to equal its specification function
  (`Abs() == SetStateSpec(config, old(Abs()), ...)`). The object invariant
  `Valid()` says the subscriber list holds no two equivalent callbacks.
- `model_lemmas.dfy` (module `ModelProperties`): what those functions guarantee.
  This covers deduplicated subscription, order-preserving unsubscription,
  change detection in both strategies, the notify-or-defer rule and batching.
  It includes a lemma that the two strategies agree when immer's patch list is
  the key-by-key difference, the write adds no key and it removes no key whose
  value is `undefined`, and a lemma that shows them disagreeing on an added key.
- `vfield.dfy` (module `VField`): the `VFieldState` factory and what it gives
  the engine.

Modelling choices:

- **Strategy.** The change-detection strategy is fixed when the model is built:
  `config.manual == !hasProxy || props.useDirty`. `hasProxy` is a constructor
  parameter that replaces the process-wide `Proxy` probe.
- **immer's `produce`.** The committed state is what the recipe makes of a draft
  of the current state. The recipe is the callback followed by `computeState`.
  The patch list is an opaque function `patchesOf(base, recipe)`, reduced to
  `(path[0], op, value)`.
- **Subscribers and hooks.** Subscribers are tokens. Their `source` field stands
  in for `toString()`, so two tokens are equivalent when their `source` is equal.
  Notification appends `Delivery(subscriber, payload)` to the ghost log.
  Controller hooks are optional pure functions (`Option`). A callback that is not
  a function is `None`.
- **Batch callbacks.** The callback of `batch` is modelled as the sequence of
  `setState` calls it makes.
- **The garbled `setState`.** The text of `setState` in
  packages/core/src/shared/model.ts is structurally garbled: there is a stray
  `})` at line 166 and the `} else {` before line 177 is missing. It is read as
  follows:
  - Lines 146-176 are the manual-diff branch.
  - Lines 178-217 are the draft/patch branch.
  - Both branches are modelled as they read, so:
    - The manual branch consults `dirtyCheck` twice in a row (lines 160-165 and 167-172).
    - The manual branch clears `dirtyMap` after notifying but keeps `dirtyNum` (line 176).
    - The draft branch does not reset the dirty bookkeeping before it reads the
      patches, and it resets both after notifying (lines 215-216).

Behaviour of the code that a reader might not expect, reproduced as written:

- A patch on an already-dirty key increments `dirtyNum` again (lines 198-201).
  The counter can therefore exceed the number of dirty keys
  (`RepeatedKeyCountsTwice`). It is not a count of distinct keys.
- The manual branch resets `dirtyMap`/`dirtyNum` at the start of every write,
  even inside a batch. A batch whose last manual write changes nothing therefore
  does not notify, even when an earlier write in the same batch changed the state
  (`ManualBatchForgetsEarlierWrites`). In draft mode the counter only grows during
  a batch (`DraftBatchKeepsCount`).
- After a notifying manual write, `hasChanged()` is still true even though
  `getChanged()` is empty (`CounterAfterNotify`).
- `hasChanged(key)` tests the key for truthiness. So `hasChanged('')` answers
  `dirtyNum > 0`, like `hasChanged()` (`Model.HasChanged`).
- A silent write inside a batch is still announced: the batch's own
  notification (lines 95-96) looks only at `dirtyNum`, not at how the writes
  were made (`SilentWriteInBatchNotifies`). `silent` only suppresses the
  write's own notification step.
- Subscriber deduplication compares callback source text, not identity. The
  model reproduces this.
- The two strategies disagree on a write that adds a key. The draft branch
  commits the new key and marks it through immer's `add` patch. The manual diff
  walks only the stored keys (lines 153-157), so it neither adds nor marks it
  (`StrategiesDivergeOnAddedKey`).
- In manual mode the draft starts from the snapshot, which is the `publishState`
  result when the controller has that hook (lines 112-113 and 146). If
  `publishState` changes the value of a stored key, every write, even one whose
  callback does nothing, copies that value back into the state and marks the
  key (lines 154-157). This is why `NoOpWrite` asks for a snapshot equal to the
  stored state.

## Model

| member | source | states |
|---|---|---|
| `SharedModel.MergeProps` | packages/core/src/shared/model.ts:58-61 | merged props hold every default and every caller key; the caller's value wins on a collision, and defaults remain for the other keys |
| `SharedModel.Subscribed` | packages/core/src/shared/model.ts:71-78 | the list gains the callback at the end exactly when it is a function and no equivalent callback is registered; otherwise it is unchanged |
| `SharedModel.Unsubscribed` | packages/core/src/shared/model.ts:80-88 | for a function, the entries that remain are exactly the registered ones not equivalent to it; a non-function argument empties the list |
| `SharedModel.Deliveries` | packages/core/src/shared/model.ts:103-105 | one call per subscriber |
| `SharedModel.Snapshot` | packages/core/src/shared/model.ts:111-118 | in manual mode with `publishState` the snapshot is the hook's result; otherwise it equals the stored state (clone, or immer's unchanged draft) |
| `SharedModel.Merge` | packages/core/src/shared/model.ts:162-164 | `Object.assign` of a defined result: the keys of both, and the result's entries overwrite; an `undefined` result leaves the map as it was |
| `SharedModel.AccountStep` | packages/core/src/shared/model.ts:187-202 | a patch on a key that is already dirty, a structural patch, or a replace with a different value marks the key and increments the counter; a replace with an equal value on a clean key changes nothing |
| `SharedModel.DiffEach` | packages/core/src/shared/model.ts:153-159 | after the loop, every stored key holds the draft's value and no key is added; the dirty map marks exactly the keys whose stored value differed from the draft's; the counter is their number |
| `SharedModel.WithoutKeepsNoEquivalentPair` | packages/core/src/shared/model.ts:80-88 | filtering out one callback's equivalents never creates an equivalent pair |
| `SharedModel.Model.constructor` | packages/core/src/shared/model.ts:56-69 | the state is the factory's default state after the controller's constructor, with `displayName` recorded; props are the merged props; the dirty map is empty, the counter is 0, there are no subscribers and no batch is open; the strategy is `!hasProxy \|\| props.useDirty` |
| `SharedModel.Model.Subscribe` | packages/core/src/shared/model.ts:71-78 | the new list is `Subscribed(old list, cb)`, and it keeps the no-equivalent-pair invariant |
| `SharedModel.Model.Unsubscribe` | packages/core/src/shared/model.ts:80-88 | the new list is `Unsubscribed(old list, cb)`, and it keeps the no-equivalent-pair invariant |
| `SharedModel.Model.Notify` | packages/core/src/shared/model.ts:103-105 | the log grows by one delivery of the payload to every subscriber, in list order; the object invariant `Valid()` is kept |
| `SharedModel.Model.GetState` | packages/core/src/shared/model.ts:107-120 | without a `publishState` hook, or in draft mode, the snapshot equals the stored state; in manual mode with the hook it is the hook's result on the stored state |
| `SharedModel.Model.GetStateWith` | packages/core/src/shared/model.ts:107-109 | the callback's answer on the snapshot |
| `SharedModel.Model.UnsafeGetSourceState` | packages/core/src/shared/model.ts:122-128 | the stored state itself, or the callback's answer on it |
| `SharedModel.Model.UnsafeSetSourceState` | packages/core/src/shared/model.ts:130-138 | only the state changes, to what the callback makes of it; there is no dirty bookkeeping and no notification; `Valid()` is kept |
| `SharedModel.Model.HasChanged` | packages/core/src/shared/model.ts:221-222 | for a non-empty key, the key is marked `true`; for no key or the empty key, `dirtyNum > 0` |
| `SharedModel.Model.GetChanged` | packages/core/src/shared/model.ts:224-230 | the dirty map's value, the same in both modes |
| `SharedModel.Model.ConsultDirtyCheck` | packages/core/src/shared/model.ts:160-165 | the dirty map after one `dirtyCheck` consultation and merge |
| `SharedModel.Model.AccountPatches` | packages/core/src/shared/model.ts:186-203 | the dirty map and counter after folding every patch in order, read against the state before the commit |
| `SharedModel.Model.SetState` | packages/core/src/shared/model.ts:140-219 | the new model equals `SetStateSpec`, in both branches, including the notify-or-defer tail; the subscriber list is unchanged and `Valid()` is kept |
| `SharedModel.Model.Batch` | packages/core/src/shared/model.ts:90-101 | the new model equals `BatchSpec`: the writes run with `batching` set, then there is one notification if the counter is positive, then reset and close; the subscriber list is unchanged and `Valid()` is kept |
| `ModelProperties.SubscribeKeepsNoEquivalentPair` | packages/core/src/shared/model.ts:71-78 | subscribing never creates an equivalent pair, keeps the old list as a prefix, and changes the list exactly when the callback is a function with no equivalent present |
| `ModelProperties.SubscribeTwice` | packages/core/src/shared/model.ts:71-78 | subscribing an equivalent callback a second time changes nothing |
| `ModelProperties.WithoutConcat` | packages/core/src/shared/model.ts:82-84 | filtering commutes with concatenation, so the surviving entries keep their relative order |
| `ModelProperties.WithoutSingle` | packages/core/src/shared/model.ts:82-84 | a single entry survives exactly when it is not equivalent |
| `ModelProperties.UnsubscribeAbsent` | packages/core/src/shared/model.ts:80-84 | unsubscribing a callback with no registered equivalent leaves the list unchanged |
| `ModelProperties.DeliveriesAt` | packages/core/src/shared/model.ts:103-105 | the i-th call goes to the i-th subscriber with the payload |
| `ModelProperties.NotifyReachesEachDefinitionOnce` | packages/core/src/shared/model.ts:103-105 | with no equivalent pair, one notify reaches each callback definition at most once |
| `ModelProperties.ManualWriteFacts` | packages/core/src/shared/model.ts:146-172 | stored keys take the draft's values, and keys only in the draft are not added; the counter is the number of changed keys; without `dirtyCheck` a key is dirty iff its value changed; subscribers, batch flag and log are unchanged |
| `ModelProperties.SingleKeyWrite` | packages/core/src/shared/model.ts:146-159 | in manual mode, without `computeState`, with a snapshot equal to the stored state and a stored key `k`, before the notification step: the write `s.k = v` changes `{k}` when `v` is new and nothing otherwise, and the counter is 1 or 0 accordingly, with any `dirtyCheck`; without `dirtyCheck`, `hasChanged(k)` holds exactly when `v` is new and `hasChanged(other)` is false for every other non-empty key |
| `ModelProperties.OneKeyWriteMarksTwo` | packages/core/src/shared/model.ts:160-172 | a `dirtyCheck` hook answering `{b: true}` makes `s.a = 5` on `{a: 1, b: 2}` mark both `a` and `b`, with counter 1 |
| `ModelProperties.SilentNeverNotifies` | packages/core/src/shared/model.ts:173-217 | a silent write calls no subscriber |
| `ModelProperties.BatchingDefers` | packages/core/src/shared/model.ts:173-213 | while a batch is open a write does not notify and keeps its dirty map and counter |
| `ModelProperties.WriteNotifiesAtMostOnce` | packages/core/src/shared/model.ts:144-217 | a non-function callback changes nothing; otherwise the log grows by one round of deliveries of the new snapshot exactly when the counter is positive, the write is not silent and no batch is open |
| `ModelProperties.CounterAfterNotify` | packages/core/src/shared/model.ts:173-216 | after notifying, both branches empty the dirty map; the manual branch keeps `hasChanged()` true; the draft branch makes it false |
| `ModelProperties.NoOpWrite` | packages/core/src/shared/model.ts:144-217 | when there is no `computeState` hook and, in manual mode, the snapshot equals the stored state (in draft mode: immer reports no patches), a callback that does nothing leaves the state unchanged, with or without a `dirtyCheck` hook; in manual mode the counter is 0 and nobody is notified (and the dirty map is empty when there is no `dirtyCheck`); in draft mode, with no patches, only an earlier positive counter can notify, and the counter is then reset |
| `ModelProperties.DirtyCheckOverrides` | packages/core/src/shared/model.ts:160-172 | a defined `dirtyCheck` answer decides the keys it names and leaves the other keys; an `undefined` answer or a missing hook changes nothing |
| `ModelProperties.DirtyCheckForcesKey` | packages/core/src/shared/model.ts:160-211 | before the notification step, a `dirtyCheck` hook whose every answer is defined and marks a non-empty `key` as `true` marks it (`hasChanged(key)` true) in both strategies, whether or not the key was assigned (what the notification step then does to the map is `CounterAfterNotify`) |
| `ModelProperties.AccountMarkedIff` | packages/core/src/shared/model.ts:186-203 | after the patch loop a key is dirty iff it was dirty before or some patch on it is structural or replaces a different value |
| `ModelProperties.AccountFrame` | packages/core/src/shared/model.ts:186-203 | entries of keys no patch names are kept; the counter grows by at most one per patch |
| `ModelProperties.AccountGrows` | packages/core/src/shared/model.ts:186-203 | the patch loop never lowers the counter |
| `ModelProperties.AccountStructural` | packages/core/src/shared/model.ts:194-197 | every non-replace patch increments the counter |
| `ModelProperties.RepeatedKeyCountsTwice` | packages/core/src/shared/model.ts:198-201 | two nested `replace` patches under the same `path[0]` (`props`) give a counter of 2 with one dirty key |
| `ModelProperties.PatchForAccount` | packages/core/src/shared/model.ts:186-203 | for a key absent from the dirty map, and not added or removed while holding `undefined`, the patch immer records for it marks it exactly when its value changes |
| `ModelProperties.ReferenceAccount` | packages/core/src/shared/model.ts:186-203 | reading the key-by-key patch list of distinct keys, none of them in the dirty map and none added or removed while holding `undefined`, marks exactly the changed keys and adds their number to the counter |
| `ModelProperties.StrategiesAgree` | packages/core/src/shared/model.ts:146-203 | from a clean slate, when the write adds no key and removes no key whose value is `undefined`, the draft branch on the key-by-key patch list gives the same dirty map and counter as the manual diff, and the same committed state when no key is removed |
| `ModelProperties.StrategiesDivergeOnAddedKey` | packages/core/src/shared/model.ts:153-157 | for `{a: 1}` and a write adding `b: 2`: the draft branch's `add` patch marks `b` with counter 1, while the manual diff finds no changed key and keeps the state `{a: 1}` |
| `ModelProperties.WritesInBatchAreQuiet` | packages/core/src/shared/model.ts:173-213 | writes inside an open batch never notify, never change subscribers and never close the batch |
| `ModelProperties.BatchNotifiesOnce` | packages/core/src/shared/model.ts:90-101 | a batch notifies exactly once, with the final snapshot, when its writes leave the counter positive, and never otherwise; it ends with an empty dirty map, counter 0 and `batching == false` |
| `ModelProperties.DraftBatchKeepsCount` | packages/core/src/shared/model.ts:178-213 | in draft mode the counter never drops during a batch |
| `ModelProperties.SilentWriteInBatchNotifies` | packages/core/src/shared/model.ts:90-101 | a silent write `s.a = 5` inside a batch on `{a: 1}` still makes the batch deliver `{a: 5}` to every subscriber when it ends |
| `ModelProperties.ManualBatchForgetsEarlierWrites` | packages/core/src/shared/model.ts:146-148 | in manual mode a batch whose last write changes nothing notifies nobody, even though its first write changed `a` |
| `ModelProperties.WorkedExampleManual` | packages/core/src/shared/model.ts:146-176 | for `{a: 1, b: 2}` and `s.a = 5`: the state becomes `{a: 5, b: 2}`; before the notification step `a` alone is dirty; each subscriber gets `{a: 5, b: 2}` once; after the call the dirty map is empty (`getChanged()` is `{}`) and the counter is 1 |
| `VField.DefaultState` | packages/core/src/state/vfield.ts:25-34 | the default keys and values: empty name, not initialized, visible, displayed, not mounted, not unmounted, empty props, `path` resolved from nothing |
| `VField.Construct` | packages/core/src/state/vfield.ts:40-45 | `path` is resolved from `props.path`; `name` is the stored path's `entire`; `props` is a copy of `props.props`; the other keys are kept |
| `VField.PublishState` | packages/core/src/state/vfield.ts:47-52 | the record has the state's keys plus `path`, with the state's values; `path` is resolved only when none is stored |
| `VField.VFieldHooks` | packages/core/src/state/vfield.ts:23-53 | the controller defines `publishState` but neither `computeState` nor `dirtyCheck` |
| `VField.VFieldFactory` | packages/core/src/state/vfield.ts:18-54 | the factory's default state, default props (`{}`), display name (`'VFieldState'`) and constructor |
| `VField.NewVFieldState` | packages/core/src/state/vfield.ts:18-54 | the engine built from this factory starts from `InitialState`, with the caller's props, its strategy and clean bookkeeping: an empty dirty map, counter 0, no subscribers, no open batch and an empty log |
| `VField.InitialStateFacts` | packages/core/src/state/vfield.ts:40-44 | once constructed: path from `props.path`, name its `entire`, props from `props.props`, default flags, `displayName == 'VFieldState'`, and no other keys |
| `VField.PublishStateIsState` | packages/core/src/state/vfield.ts:47-52 | with a stored `path` the published record equals the state |
| `VField.VFieldHooksAreTransparent` | packages/core/src/state/vfield.ts:23-53 | when `path` is stored, as it is after construction, a snapshot for this controller is the stored state in both modes; the `computeState` and `dirtyCheck` steps are always skipped |
| `VField.ManualWritesKeepKeys` | packages/core/src/state/vfield.ts:47-52 | in manual mode any sequence of writes keeps the state's keys; when `path` is stored at the start, as it is after construction, every later snapshot is the stored state |
| `VField.VFieldManualWrite` | packages/core/src/state/vfield.ts:23-53 | when `path` is stored, as it is after construction, a manual write to this model diffs the callback's result against the stored state directly, marking exactly the changed keys and counting them |

## Left out

- `packages/next/src/components/formButtonGroup.js`: React rendering, CSS and
  viewport geometry, not part of the engine.
- Aliasing through shared objects. Values are immutable. So the model does not
  capture that a `publishState` shallow copy shares nested objects with the
  stored state. In the source, a nested write through the manual draft changes
  the state without being detected. The model also does not capture the
  independence of `clone` copies, nor that the controller's `this.state` goes
  stale once draft mode replaces the state object.
- Deliveries, Model.Notify: subscriber return values are not modelled, so every
  subscriber is reached. In the source, `notify` (line 104) passes each
  subscriber's result back to the `each` helper of `@uform/shared`, which stops
  the iteration at a `false` result; a subscriber returning `false` would
  therefore cut off the subscribers after it. That helper is not part of this
  model.
- Get, AccountStep, Model.HasChanged: records and dirty maps have no
  prototype, so keys that name `Object.prototype` members (`constructor`,
  `toString`, `__proto__`, ...) are outside the model. In the source a fresh
  `dirtyMap` already answers such a key with an inherited function, so
  `!this.dirtyMap[key]` (line 188) is false for it, and a write to
  `dirtyMap['__proto__']` stores no entry.
- Reentrancy: a subscriber or hook that calls back into the model. A batch
  callback is restricted to a sequence of `setState` calls.
- Exceptions from callbacks, hooks and subscribers. Nothing is caught, so there
  is no error path to model.
- immer internals: the patch-list function is opaque (`patchesOf`), and patches
  deeper than one level are reduced to `path[0]`. A recipe that returns a
  replacement value is treated like one that mutates the draft.
- `isEqual`, `clone`, `FormPath.getPath` and `.entire`: `==`, the identity, and
  functions handed in (`PathOps`).
- The `Proxy` probe is a constructor parameter. `props` is fixed at construction,
  so `props.useDirty` cannot change the strategy later.
- A `dirtyCheck` answer with non-boolean values: answers are maps to booleans.
- The value domain is a sample of JavaScript values: there is no `null`, numbers
  are integers (no NaN, no `-0`, no fractions), and arrays appear only as
  `Record` or `Handle`. The engine relies only on equality and truthiness
  (`props.useDirty`, line 111 of packages/core/src/shared/model.ts), so the
  missing values would not change any branch it takes.
- The TypeScript generics and the `ModelType` interface.
- `SharedModel.DiffEach`: the `each` loop's writes to `this.state`, `dirtyMap`
  and `dirtyNum` are made on local copies, and `SetState` stores them when the
  loop ends. No other code runs in between. Key order is not modelled and does
  not affect the result.
- `VField.Construct`: the controller's three writes into the live state are
  modelled as a function that the engine's constructor applies to its state.
