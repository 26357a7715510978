/**
 * The virtual-field controller of packages/core/src/state/vfield.ts: a factory
 * for the engine of SharedModel with its default state, its constructor (which
 * derives `path`, `name` and `props` into the live state it is handed) and its
 * `publishState` hook. It defines neither `computeState` nor `dirtyCheck`.
 *
 * `FormPath.getPath` and `.entire` are handed in as `PathOps`; `clone` of a
 * value is the value itself.
 */
module VField {
  import opened Values
  import opened SharedModel

  /** `FormPath.getPath(x)` and `path.entire`, which this model does not look inside. */
  datatype PathOps = PathOps(getPath: Value -> Value, entire: Value -> string)

  /** `static displayName` */
  const DisplayName: string := "VFieldState"

  /** `static defaultProps` */
  const DefaultProps: Rec := map[]

  /** `static defaultState` */
  function DefaultState(p: PathOps): (s: State)
    ensures s.Keys == {"path", "name", "initialized", "visible", "display", "mounted", "unmounted", "props"}
    ensures s["path"] == p.getPath(Undefined) && s["name"] == Str("")
    ensures s["initialized"] == Bool(false) && s["visible"] == Bool(true) && s["display"] == Bool(true)
    ensures s["mounted"] == Bool(false) && s["unmounted"] == Bool(false)
    ensures s["props"] == Record(map[])
  {
    map[
      "path" := p.getPath(Undefined),
      "name" := Str(""),
      "initialized" := Bool(false),
      "visible" := Bool(true),
      "display" := Bool(true),
      "mounted" := Bool(false),
      "unmounted" := Bool(false),
      "props" := Record(map[])]
  }

  /**
   * `new VFieldState(state, props)`: three successive writes into the live
   * state, `path`, then `name` from the stored path, then a copy of `props.props`.
   */
  function Construct(p: PathOps, state: State, props: Rec): (s: State)
    ensures s.Keys == state.Keys + {"path", "name", "props"}
    ensures s["path"] == p.getPath(Get(props, "path"))
    ensures s["name"] == Str(p.entire(s["path"]))
    ensures s["props"] == Get(props, "props")
    ensures forall k :: k in state && k != "path" && k != "name" && k != "props" ==> s[k] == state[k]
  {
    var withPath := state["path" := p.getPath(Get(props, "path"))];
    var withName := withPath["name" := Str(p.entire(withPath["path"]))];
    withName["props" := Get(props, "props")]
  }

  /**
   * `publishState()`: `{ path: FormPath.getPath(this.state.path), ...this.state }`.
   * The controller's `this.state` is the engine's live state (the engine keeps
   * that object in manual mode, the only mode that calls the hook), so the hook
   * reads the state it is given. The spread comes last, so a stored `path` wins.
   */
  function PublishState(p: PathOps, s: State): (r: State)
    ensures r.Keys == s.Keys + {"path"}
    ensures forall k :: k in s ==> r[k] == s[k]
    ensures "path" !in s ==> r["path"] == p.getPath(Undefined)
  {
    map["path" := p.getPath(Get(s, "path"))] + s
  }

  /** The controller's hooks: `publishState` alone. */
  function VFieldHooks(p: PathOps): (h: Hooks)
    ensures h.computeState.None? && h.dirtyCheck.None? && h.publishState.Some?
    ensures forall s :: h.publishState.value(s) == PublishState(p, s)
  {
    Hooks(None, None, Some((s: State) => PublishState(p, s)))
  }

  /** The factory `createStateModel` receives. */
  function VFieldFactory(p: PathOps): (f: Factory)
    ensures f.defaultState == DefaultState(p) && f.defaultProps == DefaultProps
    ensures f.displayName == Str(DisplayName)
    ensures forall s, pr :: f.construct(s, pr) == Construct(p, s, pr)
  {
    Factory(DefaultState(p), DefaultProps, Str(DisplayName), (s: State, pr: Rec) => Construct(p, s, pr), VFieldHooks(p))
  }

  /** The live state of a freshly constructed `VFieldState` model. */
  function InitialState(p: PathOps, props: Rec): State
  {
    Construct(p, DefaultState(p), DefaultProps + props)["displayName" := Str(DisplayName)]
  }

  /** `new VFieldState(props)`: the engine built from this factory. */
  method NewVFieldState(p: PathOps, hasProxy: bool, patchesOf: (State, State -> State) -> seq<Patch>, props: Rec)
    returns (m: Model)
    ensures fresh(m) && m.Valid()
    ensures m.state == InitialState(p, props)
    ensures m.props == props
    ensures m.config.manual == (!hasProxy || Truthy(Get(props, "useDirty")))
    ensures m.config.hooks == VFieldHooks(p)
    ensures m.dirtyMap == map[] && m.dirtyNum == 0 && m.subscribers == [] && !m.batching && m.log == []
  {
    assert MergeProps(DefaultProps, props) == props;
    m := new Model(VFieldFactory(p), hasProxy, patchesOf, props);
  }

  // ---------------------------------------------------------------- properties

  /**
   * A fresh model: `path` is resolved from `props.path`, `name` is that path's
   * `entire`, `props` is `props.props`, the flags keep their defaults and
   * `displayName` is `'VFieldState'`; no other key is present.
   */
  lemma InitialStateFacts(p: PathOps, props: Rec)
    ensures var s := InitialState(p, props);
            && s.Keys == {"path", "name", "initialized", "visible", "display", "mounted", "unmounted", "props", "displayName"}
            && s["path"] == p.getPath(Get(props, "path"))
            && s["name"] == Str(p.entire(p.getPath(Get(props, "path"))))
            && s["props"] == Get(props, "props")
            && s["initialized"] == Bool(false) && s["visible"] == Bool(true) && s["display"] == Bool(true)
            && s["mounted"] == Bool(false) && s["unmounted"] == Bool(false)
            && s["displayName"] == Str("VFieldState")
  {
    assert DefaultProps + props == props;
  }

  /** With a stored `path`, the published record is the state itself: same keys, same values. */
  lemma PublishStateIsState(p: PathOps, s: State)
    requires "path" in s
    ensures PublishState(p, s) == s
  {
    assert PublishState(p, s).Keys == s.Keys;
  }

  /**
   * For this controller a snapshot is the stored state (through `publishState`
   * in manual mode, and as immer's unchanged draft otherwise), and the
   * `computeState` and `dirtyCheck` steps leave the draft and the dirty map alone.
   */
  lemma VFieldHooksAreTransparent(p: PathOps, c: Config, s: State, draft: State, m: DirtyMap)
    requires c.hooks == VFieldHooks(p)
    requires "path" in s
    ensures Snapshot(c, s) == s
    ensures Computed(c.hooks, draft, s) == draft
    ensures CheckDirty(c.hooks, m) == m
  {
    if c.manual {
      PublishStateIsState(p, s);
    }
  }

  /**
   * Any sequence of writes to a manual-mode `VFieldState` model keeps the
   * state's keys, so `path` stays stored and every snapshot stays the state.
   */
  lemma {:induction false} ManualWritesKeepKeys(p: PathOps, c: Config, e: Engine, ws: seq<Write>)
    requires c.manual && c.hooks == VFieldHooks(p)
    ensures RunWrites(c, e, ws).state.Keys == e.state.Keys
    ensures "path" in e.state ==> Snapshot(c, RunWrites(c, e, ws).state) == RunWrites(c, e, ws).state
    decreases |ws|
  {
    if ws != [] {
      var before := RunWrites(c, e, ws[..|ws| - 1]);
      ManualWritesKeepKeys(p, c, e, ws[..|ws| - 1]);
      var last := ws[|ws| - 1];
      if last.callback.Some? {
        var draft := ManualDraft(c, before.state, last.callback.value.apply);
        assert Adopted(before.state, draft).Keys == before.state.Keys;
      }
    }
    if "path" in e.state {
      VFieldHooksAreTransparent(p, c, RunWrites(c, e, ws).state, map[], map[]);
    }
  }

  /**
   * A manual-mode write to a `VFieldState` model diffs exactly what the callback
   * makes of the stored state: the dirty map marks the keys it changed, and the
   * counter is their number.
   */
  lemma VFieldManualWrite(p: PathOps, c: Config, e: Engine, f: State -> State, k: string)
    requires c.manual && c.hooks == VFieldHooks(p)
    requires "path" in e.state
    ensures var w := ManualWrite(c, e, f);
            && w.state == Adopted(e.state, f(e.state))
            && (Marked(w.dirtyMap, k) <==> k in e.state && e.state[k] != Get(f(e.state), k))
            && w.dirtyNum == |Changed(e.state, f(e.state))|
  {
    VFieldHooksAreTransparent(p, c, e.state, f(e.state), map[]);
    VFieldHooksAreTransparent(p, c, e.state, f(e.state), AllTrue(Changed(e.state, f(e.state))));
  }
}
