/**
 * The generic state-model engine of packages/core/src/shared/model.ts.
 *
 * `createStateModel(Factory)` returns a class; here the factory is a constructor
 * argument of the class `Model`. Every operation that changes the model is a
 * method proved against a pure function of the abstract `Engine` value, so the
 * properties of the operations are lemmas about those functions (model_lemmas.dfy).
 *
 * Reading of the garbled `setState` text: lines 146-176 are the manual-diff
 * branch (taken when `!hasProxy || props.useDirty`) and lines 178-217 are the
 * draft/patch branch (the `else`). Both branches are modelled exactly as those
 * lines read: the manual branch consults `dirtyCheck` twice in a row (160-165
 * and 167-172) and, after notifying, clears `dirtyMap` but not `dirtyNum`; the
 * draft branch does not reset the dirty bookkeeping before reading the patches,
 * and resets both after notifying.
 */
module SharedModel {
  import opened Values

  type State = Rec
  type DirtyMap = map<string, bool>

  /** The `op` of an immer patch. */
  datatype Op = Replace | Add | Remove

  /** An immer patch reduced to what the engine reads: `path[0]`, `op` and `value`. */
  datatype Patch = Patch(key: string, op: Op, value: Value)

  /** A subscriber callback: `source` stands for what `toString()` returns. */
  datatype Subscriber = Subscriber(id: nat, source: string)

  /** One call `callback(payload)` made by `notify`. */
  datatype Delivery = Delivery(subscriber: Subscriber, payload: State)

  /** A callback handed to `setState` or `unsafe_setSourceState`: its effect on the draft. */
  datatype Mutator = Mutator(apply: State -> State)

  /** One `setState(callback, silent)` call made by a batch callback. */
  datatype Write = Write(callback: Option<Mutator>, silent: bool)

  /** The optional controller hooks; `None` is "not a function". */
  datatype Hooks = Hooks(
    computeState: Option<(State, State) -> State>,
    dirtyCheck: Option<DirtyMap -> Option<DirtyMap>>,
    publishState: Option<State -> State>)

  /**
   * The factory passed to `createStateModel`: its static members and the effect
   * of `new Factory(state, props)` on the live state it is handed.
   */
  datatype Factory = Factory(
    defaultState: State,
    defaultProps: Rec,
    displayName: Value,
    construct: (State, Rec) -> State,
    hooks: Hooks)

  /**
   * What stays fixed for one model: the hooks, the strategy (`manual` is
   * `!hasProxy || props.useDirty`) and immer's change log, which for a given
   * base state and recipe lists the top-level patches the recipe performs.
   */
  datatype Config = Config(
    hooks: Hooks,
    manual: bool,
    patchesOf: (State, State -> State) -> seq<Patch>)

  /** The abstract value of a model: its mutable fields and the notifications so far. */
  datatype Engine = Engine(
    state: State,
    dirtyMap: DirtyMap,
    dirtyNum: nat,
    subscribers: seq<Subscriber>,
    batching: bool,
    log: seq<Delivery>)

  /** The dirty map and counter while the patch list is read. */
  datatype Tally = Tally(dirtyMap: DirtyMap, dirtyNum: nat)

  /** `{ ...Factory.defaultProps, ...defaultProps }`: the caller's entries win. */
  function MergeProps(defaults: Rec, caller: Rec): (r: Rec)
    ensures r.Keys == defaults.Keys + caller.Keys
    ensures forall k :: k in caller ==> r[k] == caller[k]
    ensures forall k :: k in defaults && k !in caller ==> r[k] == defaults[k]
  {
    defaults + caller
  }

  // ---------------------------------------------------------------- subscribers

  /** `subscribers.some(fn => fn.toString() === cb.toString())` */
  predicate HasEquivalent(subs: seq<Subscriber>, cb: Subscriber)
  {
    exists i :: 0 <= i < |subs| && subs[i].source == cb.source
  }

  /** No two entries of the list are equivalent. */
  predicate NoEquivalentPair(subs: seq<Subscriber>)
  {
    forall i, j :: 0 <= i < j < |subs| ==> subs[i].source != subs[j].source
  }

  /** The list after `subscribe(cb)`. */
  function Subscribed(subs: seq<Subscriber>, cb: Option<Subscriber>): (r: seq<Subscriber>)
    ensures cb.Some? && !HasEquivalent(subs, cb.value) ==> r == subs + [cb.value]
    ensures cb.None? || HasEquivalent(subs, cb.value) ==> r == subs
  {
    if cb.Some? && !HasEquivalent(subs, cb.value) then subs + [cb.value] else subs
  }

  /** `subscribers.filter(fn => fn.toString() !== source)` */
  function Without(subs: seq<Subscriber>, source: string): (r: seq<Subscriber>)
    ensures |r| <= |subs|
  {
    if subs == [] then []
    else if subs[0].source != source then [subs[0]] + Without(subs[1..], source)
    else Without(subs[1..], source)
  }

  /** The list after `unsubscribe(cb)`: a non-function argument empties it. */
  function Unsubscribed(subs: seq<Subscriber>, cb: Option<Subscriber>): (r: seq<Subscriber>)
    ensures cb.None? ==> r == []
    ensures cb.Some? ==> forall x :: x in r <==> x in subs && x.source != cb.value.source
  {
    if cb.Some? then
      WithoutMembersAll(subs, cb.value.source);
      Without(subs, cb.value.source)
    else []
  }

  /** The calls `notify(payload)` makes: every subscriber, in list order. */
  function Deliveries(subs: seq<Subscriber>, payload: State): (r: seq<Delivery>)
    ensures |r| == |subs|
  {
    if subs == [] then [] else [Delivery(subs[0], payload)] + Deliveries(subs[1..], payload)
  }

  // ---------------------------------------------------------------- reading

  /** `getState()`: the snapshot a reader receives. */
  function Snapshot(c: Config, s: State): (r: State)
    ensures !c.manual || c.hooks.publishState.None? ==> r == s
    ensures c.manual && c.hooks.publishState.Some? ==> r == c.hooks.publishState.value(s)
  {
    if c.manual && c.hooks.publishState.Some? then c.hooks.publishState.value(s) else s
  }

  /** `hasChanged(key)`: a missing or empty (falsy) key asks about the counter. */
  function ChangedAt(m: DirtyMap, n: nat, key: Option<string>): bool
  {
    if key.None? || key.value == "" then n > 0 else key.value in m && m[key.value]
  }

  // ---------------------------------------------------------------- the manual diff

  /** The keys of the stored state whose value the draft changes. */
  function Changed(s: State, draft: State): set<string>
  {
    set k | k in s && s[k] != Get(draft, k)
  }

  /** A dirty map marking exactly the given keys. */
  function AllTrue(keys: set<string>): DirtyMap
  {
    map k | k in keys :: true
  }

  /** The stored state after the diff loop: its own keys, with the draft's values. */
  function Adopted(s: State, draft: State): State
  {
    map k | k in s :: Get(draft, k)
  }

  /** `computeState(draft, state)` when the controller defines it. */
  function Computed(h: Hooks, draft: State, s: State): State
  {
    if h.computeState.Some? then h.computeState.value(draft, s) else draft
  }

  /** The manual draft: the snapshot, changed by the callback, then by `computeState`. */
  function ManualDraft(c: Config, s: State, f: State -> State): State
  {
    Computed(c.hooks, f(Snapshot(c, s)), s)
  }

  /** `Object.assign(dirtyMap, result)` unless `result` is `undefined`. */
  function Merge(m: DirtyMap, result: Option<DirtyMap>): (r: DirtyMap)
    ensures result.None? ==> r == m
    ensures result.Some? ==> r.Keys == m.Keys + result.value.Keys
    ensures result.Some? ==> forall k :: k in r ==> r[k] == if k in result.value then result.value[k] else m[k]
  {
    if result.Some? then m + result.value else m
  }

  /** One consultation of `dirtyCheck`, when the controller defines it. */
  function CheckDirty(h: Hooks, m: DirtyMap): DirtyMap
  {
    if h.dirtyCheck.Some? then Merge(m, h.dirtyCheck.value(m)) else m
  }

  // ---------------------------------------------------------------- the patch diff

  /** `this.dirtyMap[key]` is truthy. */
  predicate Marked(m: DirtyMap, k: string)
  {
    k in m && m[k]
  }

  /** Whether a patch on a key not yet dirty marks it (the replace-with-equal suppression). */
  predicate Marks(prior: State, p: Patch)
  {
    p.op != Replace || Get(prior, p.key) != p.value
  }

  /** The body of `patches.forEach` for one patch. */
  function AccountStep(t: Tally, prior: State, p: Patch): (r: Tally)
    ensures Marked(t.dirtyMap, p.key) || Marks(prior, p) ==>
              r == Tally(t.dirtyMap[p.key := true], t.dirtyNum + 1)
    ensures !Marked(t.dirtyMap, p.key) && !Marks(prior, p) ==> r == t
  {
    if !Marked(t.dirtyMap, p.key) then
      if p.op == Replace then
        if Get(prior, p.key) != p.value then Tally(t.dirtyMap[p.key := true], t.dirtyNum + 1) else t
      else Tally(t.dirtyMap[p.key := true], t.dirtyNum + 1)
    else Tally(t.dirtyMap[p.key := true], t.dirtyNum + 1)
  }

  /** `patches.forEach(...)`, in list order, against the state before the commit. */
  function Account(t: Tally, prior: State, ps: seq<Patch>): Tally
    decreases |ps|
  {
    if ps == [] then t else Account(AccountStep(t, prior, ps[0]), prior, ps[1..])
  }

  /** The immer recipe: the callback, then `computeState(draft, this.state)`. */
  function Recipe(h: Hooks, s: State, f: State -> State): State -> State
  {
    (d: State) => Computed(h, f(d), s)
  }

  // ---------------------------------------------------------------- writing

  /**
   * The common tail of both branches: notify with a fresh snapshot unless the
   * write is silent, nothing is dirty, or a batch is open (then the dirty state
   * is left for the batch). `resetCount` is false in the manual branch (line 176)
   * and true in the draft branch (lines 215-216).
   */
  function Settle(c: Config, e: Engine, silent: bool, resetCount: bool): Engine
  {
    if e.dirtyNum > 0 && !silent && !e.batching then
      e.(log := e.log + Deliveries(e.subscribers, Snapshot(c, e.state)),
         dirtyMap := map[],
         dirtyNum := if resetCount then 0 else e.dirtyNum)
    else e
  }

  /** The manual branch before its notification step (lines 146-172). */
  function ManualWrite(c: Config, e: Engine, f: State -> State): Engine
  {
    var draft := ManualDraft(c, e.state, f);
    var changed := Changed(e.state, draft);
    e.(state := Adopted(e.state, draft),
       dirtyMap := CheckDirty(c.hooks, CheckDirty(c.hooks, AllTrue(changed))),
       dirtyNum := |changed|)
  }

  /** The draft branch before its notification step (lines 178-211). */
  function DraftWrite(c: Config, e: Engine, f: State -> State): Engine
  {
    var recipe := Recipe(c.hooks, e.state, f);
    var t := Account(Tally(e.dirtyMap, e.dirtyNum), e.state, c.patchesOf(e.state, recipe));
    e.(state := recipe(e.state),
       dirtyMap := CheckDirty(c.hooks, t.dirtyMap),
       dirtyNum := t.dirtyNum)
  }

  /** `setState(callback, silent)`. */
  function SetStateSpec(c: Config, e: Engine, cb: Option<Mutator>, silent: bool): Engine
  {
    if cb.None? then e
    else if c.manual then Settle(c, ManualWrite(c, e, cb.value.apply), silent, false)
    else Settle(c, DraftWrite(c, e, cb.value.apply), silent, true)
  }

  /** The writes of a batch callback, performed in order. */
  function RunWrites(c: Config, e: Engine, ws: seq<Write>): Engine
    decreases |ws|
  {
    if ws == [] then e
    else
      var last := ws[|ws| - 1];
      SetStateSpec(c, RunWrites(c, e, ws[..|ws| - 1]), last.callback, last.silent)
  }

  /** `batch(callback)`. */
  function BatchSpec(c: Config, e: Engine, cb: Option<seq<Write>>): Engine
  {
    var afterWrites := RunWrites(c, e.(batching := true), if cb.Some? then cb.value else []);
    var notified :=
      if afterWrites.dirtyNum > 0
      then afterWrites.(log := afterWrites.log + Deliveries(afterWrites.subscribers, Snapshot(c, afterWrites.state)))
      else afterWrites;
    notified.(dirtyMap := map[], dirtyNum := 0, batching := false)
  }

  // ---------------------------------------------------------------- the class

  class Model {
    const factory: Factory
    const config: Config
    const props: Rec
    const displayName: Value
    var state: State
    var dirtyMap: DirtyMap
    var dirtyNum: nat
    var subscribers: seq<Subscriber>
    var batching: bool
    /** Every subscriber call made so far, in order. */
    ghost var log: seq<Delivery>

    ghost function Abs(): Engine
      reads this
    {
      Engine(state, dirtyMap, dirtyNum, subscribers, batching, log)
    }

    /** The subscriber list never holds two equivalent callbacks. */
    ghost predicate Valid()
      reads this
    {
      NoEquivalentPair(subscribers)
    }

    /**
     * `new Model(defaultProps)`. `hasProxy` is the runtime probe of line 15 and
     * `patchesOf` is immer's change log; both are handed in.
     */
    constructor (factory: Factory, hasProxy: bool, patchesOf: (State, State -> State) -> seq<Patch>, callerProps: Rec)
      ensures Valid()
      ensures this.factory == factory
      ensures props == MergeProps(factory.defaultProps, callerProps)
      ensures config.manual == (!hasProxy || Truthy(Get(props, "useDirty")))
      ensures config.hooks == factory.hooks && config.patchesOf == patchesOf
      ensures displayName == factory.displayName
      ensures state == factory.construct(factory.defaultState, props)["displayName" := factory.displayName]
      ensures dirtyMap == map[] && dirtyNum == 0
      ensures subscribers == [] && !batching && log == []
    {
      this.factory := factory;
      var merged := MergeProps(factory.defaultProps, callerProps);
      props := merged;
      config := Config(factory.hooks, !hasProxy || Truthy(Get(merged, "useDirty")), patchesOf);
      displayName := factory.displayName;
      var s := factory.defaultState;
      dirtyMap := map[];
      dirtyNum := 0;
      subscribers := [];
      batching := false;
      log := [];
      s := factory.construct(s, merged);
      state := s["displayName" := factory.displayName];
    }

    /** `subscribe(callback)` */
    method Subscribe(cb: Option<Subscriber>)
      requires Valid()
      modifies this`subscribers
      ensures Valid()
      ensures subscribers == Subscribed(old(subscribers), cb)
    {
      if cb.Some? && !HasEquivalent(subscribers, cb.value) {
        subscribers := subscribers + [cb.value];
      }
    }

    /** `unsubscribe(callback)` */
    method Unsubscribe(cb: Option<Subscriber>)
      requires Valid()
      modifies this`subscribers
      ensures Valid()
      ensures subscribers == Unsubscribed(old(subscribers), cb)
    {
      if cb.Some? {
        subscribers := Without(subscribers, cb.value.source);
        WithoutKeepsNoEquivalentPair(old(subscribers), cb.value.source);
      } else {
        subscribers := [];
      }
    }

    /** `notify(payload)`: each subscriber in order. */
    method Notify(payload: State)
      requires Valid()
      modifies this`log
      ensures Valid()
      ensures log == old(log) + Deliveries(subscribers, payload)
    {
      for i := 0 to |subscribers|
        invariant log == old(log) + Deliveries(subscribers[..i], payload)
      {
        DeliveriesSnoc(subscribers[..i], subscribers[i], payload);
        assert subscribers[..i + 1] == subscribers[..i] + [subscribers[i]];
        log := log + [Delivery(subscribers[i], payload)];
      }
      assert subscribers[..|subscribers|] == subscribers;
    }

    /** `getState()` */
    function GetState(): (s: State)
      reads this
      ensures !config.manual || config.hooks.publishState.None? ==> s == state
      ensures config.manual && config.hooks.publishState.Some? ==> s == config.hooks.publishState.value(state)
    {
      Snapshot(config, state)
    }

    /** `getState(callback)`: the callback applied to the snapshot. */
    function GetStateWith<R>(callback: State -> R): (r: R)
      reads this
      ensures r == callback(Snapshot(config, state))
    {
      callback(GetState())
    }

    /** `unsafe_getSourceState(callback?)`: the stored state itself, or the callback's answer on it. */
    function UnsafeGetSourceState(callback: Option<State -> State>): (s: State)
      reads this
      ensures callback.None? ==> s == state
      ensures callback.Some? ==> s == callback.value(state)
    {
      if callback.Some? then callback.value(state) else state
    }

    /** `unsafe_setSourceState(callback)`: no dirty bookkeeping, no notification. */
    method UnsafeSetSourceState(cb: Option<Mutator>)
      requires Valid()
      modifies this`state
      ensures Valid()
      ensures state == if cb.Some? then cb.value.apply(old(state)) else old(state)
    {
      if cb.Some? {
        if config.manual {
          state := cb.value.apply(state);
        } else {
          // produce(state, callback) commits what the callback makes of a draft
          state := cb.value.apply(state);
        }
      }
    }

    /** `hasChanged(key?)` */
    function HasChanged(key: Option<string>): (b: bool)
      reads this
      ensures key.Some? && key.value != "" ==> (b <==> Marked(dirtyMap, key.value))
      ensures key.None? || key.value == "" ==> (b <==> dirtyNum > 0)
    {
      ChangedAt(dirtyMap, dirtyNum, key)
    }

    /** `getChanged()`: a copy in manual mode, the live map otherwise; the same value either way. */
    function GetChanged(): (m: DirtyMap)
      reads this
      ensures m == dirtyMap
    {
      dirtyMap
    }

    /** The `patches.forEach` of lines 186-203, read against the state before the commit. */
    method AccountPatches(patches: seq<Patch>)
      modifies this`dirtyMap, this`dirtyNum
      ensures Tally(dirtyMap, dirtyNum) == Account(Tally(old(dirtyMap), old(dirtyNum)), state, patches)
    {
      for i := 0 to |patches|
        invariant Account(Tally(dirtyMap, dirtyNum), state, patches[i..])
               == Account(Tally(old(dirtyMap), old(dirtyNum)), state, patches)
      {
        var p := patches[i];
        assert patches[i..][1..] == patches[i + 1..];
        if !Marked(dirtyMap, p.key) {
          if p.op == Replace {
            if Get(state, p.key) != p.value {
              dirtyMap := dirtyMap[p.key := true];
              dirtyNum := dirtyNum + 1;
            }
          } else {
            dirtyMap := dirtyMap[p.key := true];
            dirtyNum := dirtyNum + 1;
          }
        } else {
          dirtyMap := dirtyMap[p.key := true];
          dirtyNum := dirtyNum + 1;
        }
      }
    }

    /** `if (isFn(dirtyCheck)) { const result = dirtyCheck(dirtyMap); if (result !== undefined) Object.assign(dirtyMap, result) }` */
    method ConsultDirtyCheck()
      modifies this`dirtyMap
      ensures dirtyMap == CheckDirty(config.hooks, old(dirtyMap))
    {
      if config.hooks.dirtyCheck.Some? {
        var result := config.hooks.dirtyCheck.value(dirtyMap);
        if result.Some? {
          dirtyMap := dirtyMap + result.value;
        }
      }
    }

    /** `setState(callback, silent)`, both branches. */
    method SetState(cb: Option<Mutator>, silent: bool)
      requires Valid()
      modifies this
      ensures Valid() && subscribers == old(subscribers)
      ensures Abs() == SetStateSpec(config, old(Abs()), cb, silent)
    {
      if cb.None? {
        return;
      }
      var f := cb.value.apply;
      if config.manual {
        var draft := GetState();
        dirtyNum := 0;
        dirtyMap := map[];
        draft := f(draft);
        draft := Computed(config.hooks, draft, state);
        state, dirtyMap, dirtyNum := DiffEach(state, draft);
        ConsultDirtyCheck();
        ConsultDirtyCheck();
        if dirtyNum > 0 && !silent {
          if batching {
            return;
          }
          Notify(GetState());
          dirtyMap := map[];
        }
      } else {
        var recipe := Recipe(config.hooks, state, f);
        AccountPatches(config.patchesOf(state, recipe));
        state := recipe(state);
        ConsultDirtyCheck();
        if dirtyNum > 0 && !silent {
          if batching {
            return;
          }
          Notify(GetState());
          dirtyMap := map[];
          dirtyNum := 0;
        }
      }
    }

    /** `batch(callback)`: the callback is the sequence of writes it performs. */
    method Batch(cb: Option<seq<Write>>)
      requires Valid()
      modifies this
      ensures Valid() && subscribers == old(subscribers)
      ensures Abs() == BatchSpec(config, old(Abs()), cb)
    {
      batching := true;
      ghost var inBatch := Abs();
      if cb.Some? {
        var ws := cb.value;
        for i := 0 to |ws|
          invariant Abs() == RunWrites(config, inBatch, ws[..i])
          invariant Valid() && subscribers == old(subscribers)
        {
          assert ws[..i + 1][..i] == ws[..i];
          SetState(ws[i].callback, ws[i].silent);
        }
        assert ws[..|ws|] == ws;
      }
      if dirtyNum > 0 {
        Notify(GetState());
      }
      dirtyMap := map[];
      dirtyNum := 0;
      batching := false;
    }
  }

  // ---------------------------------------------------------------- helpers for the class

  /**
   * The `each(this.state, ...)` loop of lines 153-159, run on a freshly reset
   * dirty map. It walks the stored keys (in no particular order: the result does
   * not depend on it) and works on local copies that `SetState` writes back.
   */
  method DiffEach(stored: State, draft: State) returns (state: State, dirtyMap: DirtyMap, dirtyNum: nat)
    ensures state == Adopted(stored, draft)
    ensures dirtyMap == AllTrue(Changed(stored, draft))
    ensures dirtyNum == |Changed(stored, draft)|
  {
    state, dirtyMap, dirtyNum := stored, map[], 0;
    var todo := state.Keys;
    ghost var dirty: set<string> := {};
    while todo != {}
      invariant todo <= stored.Keys && state.Keys == stored.Keys
      invariant forall k :: k in state ==> state[k] == if k in todo then stored[k] else Get(draft, k)
      invariant forall k :: k in dirty <==> k in stored && k !in todo && stored[k] != Get(draft, k)
      invariant dirtyMap.Keys == dirty && forall k :: k in dirtyMap ==> dirtyMap[k]
      invariant dirtyNum == |dirty|
      decreases |todo|
    {
      var k :| k in todo;
      if state[k] != Get(draft, k) {
        assert k !in dirty;
        state := state[k := Get(draft, k)];
        dirtyMap := dirtyMap[k := true];
        dirtyNum := dirtyNum + 1;
        dirty := dirty + {k};
      }
      todo := todo - {k};
    }
    DiffComplete(stored, draft, state, dirty, dirtyMap);
  }

  lemma DiffComplete(s0: State, draft: State, s: State, dirty: set<string>, m: DirtyMap)
    requires s.Keys == s0.Keys && forall k :: k in s0 ==> s[k] == Get(draft, k)
    requires forall k :: k in s0 ==> (k in dirty <==> s0[k] != Get(draft, k))
    requires dirty <= s0.Keys
    requires m.Keys == dirty && forall k :: k in m ==> m[k]
    ensures s == Adopted(s0, draft)
    ensures dirty == Changed(s0, draft)
    ensures m == AllTrue(Changed(s0, draft))
  {
  }

  lemma {:induction false} DeliveriesSnoc(subs: seq<Subscriber>, s: Subscriber, payload: State)
    ensures Deliveries(subs + [s], payload) == Deliveries(subs, payload) + [Delivery(s, payload)]
  {
    if subs != [] {
      assert (subs + [s])[1..] == subs[1..] + [s];
      DeliveriesSnoc(subs[1..], s, payload);
    }
  }

  lemma {:induction false} WithoutMembers(subs: seq<Subscriber>, source: string, x: Subscriber)
    ensures x in Without(subs, source) <==> x in subs && x.source != source
  {
    if subs != [] {
      WithoutMembers(subs[1..], source, x);
      assert subs == [subs[0]] + subs[1..];
    }
  }

  lemma WithoutMembersAll(subs: seq<Subscriber>, source: string)
    ensures forall x :: x in Without(subs, source) <==> x in subs && x.source != source
  {
    forall x {
      WithoutMembers(subs, source, x);
    }
  }

  lemma {:induction false} WithoutKeepsNoEquivalentPair(subs: seq<Subscriber>, source: string)
    requires NoEquivalentPair(subs)
    ensures NoEquivalentPair(Without(subs, source))
  {
    if subs != [] {
      var rest := subs[1..];
      assert NoEquivalentPair(rest) by {
        forall i, j | 0 <= i < j < |rest| ensures rest[i].source != rest[j].source {
          assert rest[i] == subs[i + 1] && rest[j] == subs[j + 1];
        }
      }
      WithoutKeepsNoEquivalentPair(rest, source);
      if subs[0].source != source {
        var r := [subs[0]] + Without(rest, source);
        forall j | 0 < j < |r| ensures r[0].source != r[j].source {
          assert r[j] in Without(rest, source);
          WithoutMembers(rest, source, r[j]);
          var m :| 0 <= m < |rest| && rest[m] == r[j];
          assert subs[m + 1] == r[j];
        }
      }
    }
  }
}
