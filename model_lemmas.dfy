/**
 * Properties of the state-model engine of packages/core/src/shared/model.ts,
 * stated about the functions the methods of `SharedModel.Model` are proved
 * against.
 */
module ModelProperties {
  import opened Values
  import opened SharedModel

  // ================================================================ subscription

  /** `subscribe` keeps the list free of equivalent pairs and only ever appends. */
  lemma SubscribeKeepsNoEquivalentPair(subs: seq<Subscriber>, cb: Option<Subscriber>)
    requires NoEquivalentPair(subs)
    ensures NoEquivalentPair(Subscribed(subs, cb))
    ensures subs <= Subscribed(subs, cb)
    ensures Subscribed(subs, cb) != subs <==> cb.Some? && !HasEquivalent(subs, cb.value)
  {
    var r := Subscribed(subs, cb);
    if r != subs {
      forall i, j | 0 <= i < j < |r| ensures r[i].source != r[j].source {
        if j == |subs| {
          assert r[i] == subs[i];
        }
      }
    }
  }

  /** Registering an equivalent callback a second time changes nothing. */
  lemma SubscribeTwice(subs: seq<Subscriber>, a: Subscriber, b: Subscriber)
    requires a.source == b.source
    ensures Subscribed(Subscribed(subs, Some(a)), Some(b)) == Subscribed(subs, Some(a))
  {
    var r := Subscribed(subs, Some(a));
    if r == subs + [a] {
      assert r[|subs|].source == b.source;
    } else {
      var i :| 0 <= i < |subs| && subs[i].source == a.source;
      assert r[i].source == b.source;
    }
  }

  /** Filtering commutes with concatenation, so the survivors keep their order. */
  lemma {:induction false} WithoutConcat(a: seq<Subscriber>, b: seq<Subscriber>, source: string)
    ensures Without(a + b, source) == Without(a, source) + Without(b, source)
  {
    if a == [] {
      assert a + b == b;
    } else {
      assert (a + b)[0] == a[0];
      assert (a + b)[1..] == a[1..] + b;
      WithoutConcat(a[1..], b, source);
    }
  }

  /** A single entry survives `unsubscribe` exactly when it is not equivalent. */
  lemma WithoutSingle(x: Subscriber, source: string)
    ensures Without([x], source) == if x.source != source then [x] else []
  {
    assert [x][1..] == [];
  }

  /** Unsubscribing a callback nobody equivalent to is registered leaves the list as it was. */
  lemma {:induction false} UnsubscribeAbsent(subs: seq<Subscriber>, cb: Subscriber)
    requires !HasEquivalent(subs, cb)
    ensures Unsubscribed(subs, Some(cb)) == subs
  {
    if subs != [] {
      assert subs[0].source != cb.source;
      UnsubscribeAbsent(subs[1..], cb);
      assert subs == [subs[0]] + subs[1..];
    }
  }

  /** `notify(payload)` calls the i-th subscriber i-th, each with the same payload. */
  lemma {:induction false} DeliveriesAt(subs: seq<Subscriber>, payload: State, i: nat)
    requires i < |subs|
    ensures Deliveries(subs, payload)[i] == Delivery(subs[i], payload)
  {
    if i > 0 {
      DeliveriesAt(subs[1..], payload, i - 1);
    }
  }

  /** With no equivalent pair registered, one `notify` reaches each callback definition once. */
  lemma NotifyReachesEachDefinitionOnce(subs: seq<Subscriber>, payload: State, i: nat, j: nat)
    requires NoEquivalentPair(subs)
    requires i < j < |subs|
    ensures Deliveries(subs, payload)[i].subscriber.source != Deliveries(subs, payload)[j].subscriber.source
  {
    DeliveriesAt(subs, payload, i);
    DeliveriesAt(subs, payload, j);
  }

  // ================================================================ the manual diff

  /**
   * The manual branch up to its notification step: the stored keys take the
   * draft's values, keys only in the draft are not added, the dirty counter is
   * the number of changed keys, and without `dirtyCheck` the dirty map marks
   * exactly those keys.
   */
  lemma ManualWriteFacts(c: Config, e: Engine, f: State -> State, k: string)
    ensures var draft := ManualDraft(c, e.state, f);
            var w := ManualWrite(c, e, f);
            && w.state.Keys == e.state.Keys
            && (k in e.state ==> w.state[k] == Get(draft, k))
            && (k in draft && k !in e.state ==> k !in w.state)
            && w.dirtyNum == |Changed(e.state, draft)|
            && (c.hooks.dirtyCheck.None? ==>
                  (Marked(w.dirtyMap, k) <==> k in e.state && e.state[k] != Get(draft, k)))
            && w.subscribers == e.subscribers && w.batching == e.batching && w.log == e.log
  {
  }

  /**
   * A one-key assignment `s.k = v` through a plain snapshot changes `k` alone,
   * and only if `v` is new; the counter is then 1, or 0 for an equal value,
   * whatever `dirtyCheck` does. Without `dirtyCheck`, `hasChanged(k)` holds
   * exactly when `v` is new and `hasChanged(other)` fails for every other
   * non-empty key. A `dirtyCheck` hook may mark more keys (`OneKeyWriteMarksTwo`).
   */
  lemma SingleKeyWrite(c: Config, e: Engine, k: string, v: Value, other: string)
    requires c.manual && c.hooks.computeState.None? && Snapshot(c, e.state) == e.state
    requires k in e.state
    ensures Changed(e.state, ManualDraft(c, e.state, (s: State) => s[k := v]))
              == if e.state[k] != v then {k} else {}
    ensures var w := ManualWrite(c, e, (s: State) => s[k := v]);
            && w.dirtyNum == (if e.state[k] != v then 1 else 0)
            && (c.hooks.dirtyCheck.None? ==>
                  && (ChangedAt(w.dirtyMap, w.dirtyNum, Some(k)) <==> e.state[k] != v)
                  && (other != k && other != "" ==> !ChangedAt(w.dirtyMap, w.dirtyNum, Some(other))))
  {
  }

  // ================================================================ notification

  /** A silent write never calls a subscriber. */
  lemma SilentNeverNotifies(c: Config, e: Engine, cb: Option<Mutator>)
    ensures SetStateSpec(c, e, cb, true).log == e.log
    ensures SetStateSpec(c, e, cb, true).subscribers == e.subscribers
  {
  }

  /** Inside a batch a write does not notify and keeps its dirty bookkeeping for the batch. */
  lemma BatchingDefers(c: Config, e: Engine, cb: Option<Mutator>, silent: bool)
    requires e.batching
    ensures var r := SetStateSpec(c, e, cb, silent);
            && r.log == e.log && r.batching
            && (cb.Some? && c.manual ==> r == ManualWrite(c, e, cb.value.apply))
            && (cb.Some? && !c.manual ==> r == DraftWrite(c, e, cb.value.apply))
  {
  }

  /**
   * Outside a batch a non-silent write that left something dirty notifies every
   * subscriber once, in order, with the snapshot of the new state; otherwise it
   * notifies nobody. A non-function callback changes nothing at all.
   */
  lemma WriteNotifiesAtMostOnce(c: Config, e: Engine, cb: Option<Mutator>, silent: bool)
    ensures cb.None? ==> SetStateSpec(c, e, cb, silent) == e
    ensures cb.Some? ==>
      var w := if c.manual then ManualWrite(c, e, cb.value.apply) else DraftWrite(c, e, cb.value.apply);
      var r := SetStateSpec(c, e, cb, silent);
      && r.state == w.state
      && r.log == e.log + (if w.dirtyNum > 0 && !silent && !e.batching
                           then Deliveries(e.subscribers, Snapshot(c, w.state)) else [])
  {
  }

  /**
   * After notifying, the manual branch empties the dirty map but keeps the
   * counter, so `hasChanged()` answers true while `getChanged()` is empty; the
   * draft branch resets both.
   */
  lemma CounterAfterNotify(c: Config, e: Engine, f: State -> State)
    requires !e.batching
    ensures c.manual && ManualWrite(c, e, f).dirtyNum > 0 ==>
              var r := SetStateSpec(c, e, Some(Mutator(f)), false);
              r.dirtyMap == map[] && ChangedAt(r.dirtyMap, r.dirtyNum, None)
    ensures !c.manual && DraftWrite(c, e, f).dirtyNum > 0 ==>
              var r := SetStateSpec(c, e, Some(Mutator(f)), false);
              r.dirtyMap == map[] && !ChangedAt(r.dirtyMap, r.dirtyNum, None)
  {
  }

  /**
   * A write whose callback does nothing neither dirties nor notifies, whatever
   * `dirtyCheck` answers: the hook can change the dirty map but not the counter.
   */
  lemma NoOpWrite(c: Config, e: Engine, f: State -> State, silent: bool)
    requires forall s: State :: f(s) == s
    requires c.hooks.computeState.None?
    requires c.manual ==> Snapshot(c, e.state) == e.state
    requires !c.manual ==> c.patchesOf(e.state, Recipe(c.hooks, e.state, f)) == []
    ensures var r := SetStateSpec(c, e, Some(Mutator(f)), silent);
            && r.state == e.state
            && r.log == (if !c.manual && e.dirtyNum > 0 && !silent && !e.batching
                         then e.log + Deliveries(e.subscribers, e.state) else e.log)
            && (c.manual ==> r.dirtyNum == 0)
            && (c.manual && c.hooks.dirtyCheck.None? ==> r.dirtyMap == map[])
            && (!c.manual ==> r.dirtyNum == (if e.dirtyNum > 0 && !silent && !e.batching then 0 else e.dirtyNum))
  {
    if c.manual {
      var d := ManualDraft(c, e.state, f);
      assert d == e.state;
      assert Changed(e.state, d) == {};
      assert Adopted(e.state, d) == e.state;
    }
  }

  // ================================================================ dirtyCheck

  /**
   * A `dirtyCheck` answer overwrites the entries it names and leaves the others;
   * an `undefined` answer (or no hook) leaves the map as it was.
   */
  lemma DirtyCheckOverrides(h: Hooks, m: DirtyMap, k: string)
    ensures h.dirtyCheck.None? ==> CheckDirty(h, m) == m
    ensures h.dirtyCheck.Some? && h.dirtyCheck.value(m).None? ==> CheckDirty(h, m) == m
    ensures h.dirtyCheck.Some? && h.dirtyCheck.value(m).Some? ==>
              var r := h.dirtyCheck.value(m).value;
              (k in r ==> (Marked(CheckDirty(h, m), k) <==> r[k])) &&
              (k !in r ==> (Marked(CheckDirty(h, m), k) <==> Marked(m, k)))
  {
  }

  /**
   * A hook whose every answer marks `key` as `true` makes `hasChanged(key)`
   * true even though nothing assigned it.
   */
  lemma DirtyCheckForcesKey(c: Config, e: Engine, f: State -> State, key: string)
    requires key != ""
    requires c.hooks.dirtyCheck.Some?
    requires forall m: DirtyMap {:trigger c.hooks.dirtyCheck.value(m)} ::
               c.hooks.dirtyCheck.value(m).Some? && Marked(c.hooks.dirtyCheck.value(m).value, key)
    ensures var w := if c.manual then ManualWrite(c, e, f) else DraftWrite(c, e, f);
            ChangedAt(w.dirtyMap, w.dirtyNum, Some(key))
  {
  }

  // ================================================================ the patch diff

  /**
   * After the patch loop a key is dirty exactly when it was dirty before or some
   * patch on it is structural or replaces its stored value by a different one.
   */
  lemma {:induction false} AccountMarkedIff(t: Tally, prior: State, ps: seq<Patch>, k: string)
    ensures Marked(Account(t, prior, ps).dirtyMap, k) <==>
              Marked(t.dirtyMap, k) || exists i :: 0 <= i < |ps| && ps[i].key == k && Marks(prior, ps[i])
    decreases |ps|
  {
    if ps != [] {
      var t1 := AccountStep(t, prior, ps[0]);
      AccountMarkedIff(t1, prior, ps[1..], k);
      assert Marked(t1.dirtyMap, k) <==> Marked(t.dirtyMap, k) || (ps[0].key == k && Marks(prior, ps[0]));
      if exists i :: 0 <= i < |ps| && ps[i].key == k && Marks(prior, ps[i]) {
        var i :| 0 <= i < |ps| && ps[i].key == k && Marks(prior, ps[i]);
        if i > 0 {
          assert ps[1..][i - 1] == ps[i];
        }
      }
      if exists i :: 0 <= i < |ps[1..]| && ps[1..][i].key == k && Marks(prior, ps[1..][i]) {
        var i :| 0 <= i < |ps[1..]| && ps[1..][i].key == k && Marks(prior, ps[1..][i]);
        assert ps[i + 1] == ps[1..][i];
      }
    }
  }

  /**
   * The patch loop only adds marks: entries of keys no patch names are kept, and
   * the counter grows by at most one per patch.
   */
  lemma {:induction false} AccountFrame(t: Tally, prior: State, ps: seq<Patch>, k: string)
    requires forall i :: 0 <= i < |ps| ==> ps[i].key != k
    ensures var r := Account(t, prior, ps);
            (k in r.dirtyMap <==> k in t.dirtyMap) &&
            (k in t.dirtyMap ==> r.dirtyMap[k] == t.dirtyMap[k])
    ensures t.dirtyNum <= Account(t, prior, ps).dirtyNum <= t.dirtyNum + |ps|
    decreases |ps|
  {
    if ps != [] {
      assert ps[0].key != k;
      AccountFrame(AccountStep(t, prior, ps[0]), prior, ps[1..], k);
    }
  }

  /** Every structural (non-replace) patch counts, whatever was dirty before. */
  lemma {:induction false} AccountStructural(t: Tally, prior: State, ps: seq<Patch>)
    requires forall i :: 0 <= i < |ps| ==> ps[i].op != Replace
    ensures Account(t, prior, ps).dirtyNum == t.dirtyNum + |ps|
    decreases |ps|
  {
    if ps != [] {
      AccountStructural(AccountStep(t, prior, ps[0]), prior, ps[1..]);
    }
  }

  /**
   * Two nested patches under one top-level key (paths `['props', 'x']` and
   * `['props', 'y']`, each carrying its leaf value) count twice: the first is
   * compared against the whole `props` record, the second finds `props` dirty,
   * so the counter exceeds the number of dirty keys.
   */
  lemma RepeatedKeyCountsTwice(fields: map<string, Value>, v1: Value, v2: Value)
    requires v1 != Record(fields)
    ensures var prior := map["props" := Record(fields)];
            var r := Account(Tally(map[], 0), prior, [Patch("props", Replace, v1), Patch("props", Replace, v2)]);
            r == Tally(map["props" := true], 2) && r.dirtyNum > |r.dirtyMap|
  {
    var prior := map["props" := Record(fields)];
    var ps := [Patch("props", Replace, v1), Patch("props", Replace, v2)];
    var t1 := AccountStep(Tally(map[], 0), prior, ps[0]);
    assert t1 == Tally(map["props" := true], 1);
    var t2 := AccountStep(t1, prior, ps[1]);
    assert map["props" := true]["props" := true] == map["props" := true];
    assert t2 == Tally(map["props" := true], 2);
    assert ps[1..][0] == ps[1] && ps[1..][1..] == [];
    assert Account(t1, prior, ps[1..]) == Account(t2, prior, []);
  }

  // ================================================================ the two strategies agree

  /** The patch immer records for one top-level key when a recipe turns `pre` into `post`. */
  function PatchFor(k: string, pre: State, post: State): seq<Patch>
  {
    if k in pre && k in post then (if pre[k] != post[k] then [Patch(k, Replace, post[k])] else [])
    else if k in pre then [Patch(k, Remove, Undefined)]
    else if k in post then [Patch(k, Add, post[k])]
    else []
  }

  /** The patches immer records, key by key in the order `ks`. */
  function ReferencePatches(ks: seq<string>, pre: State, post: State): seq<Patch>
    decreases |ks|
  {
    if ks == [] then [] else PatchFor(ks[0], pre, post) + ReferencePatches(ks[1..], pre, post)
  }

  /** Reading the patch of one key marks it exactly when its value changes. */
  lemma PatchForAccount(t: Tally, k: string, pre: State, post: State, tail: seq<Patch>)
    requires k !in t.dirtyMap
    requires (k in pre) != (k in post) ==> Get(pre, k) != Get(post, k)
    ensures Account(t, pre, PatchFor(k, pre, post) + tail)
         == if Get(pre, k) != Get(post, k)
            then Account(Tally(t.dirtyMap[k := true], t.dirtyNum + 1), pre, tail)
            else Account(t, pre, tail)
  {
    var here := PatchFor(k, pre, post);
    if here != [] {
      assert (here + tail)[0] == here[0] && (here + tail)[1..] == tail;
    } else {
      assert here + tail == tail;
    }
  }

  predicate Distinct(ks: seq<string>)
  {
    forall i, j :: 0 <= i < j < |ks| ==> ks[i] != ks[j]
  }

  /** The keys among `ks` whose value (read as `undefined` when absent) differs. */
  function ChangedAmong(ks: seq<string>, pre: State, post: State): set<string>
  {
    set k | k in ks && Get(pre, k) != Get(post, k)
  }

  lemma {:induction false} ReferenceAccount(t: Tally, pre: State, post: State, ks: seq<string>)
    requires Distinct(ks)
    requires forall k :: k in ks ==> k !in t.dirtyMap
    requires forall k :: k in ks && (k in pre) != (k in post) ==> Get(pre, k) != Get(post, k)
    ensures Account(t, pre, ReferencePatches(ks, pre, post))
         == Tally(t.dirtyMap + AllTrue(ChangedAmong(ks, pre, post)), t.dirtyNum + |ChangedAmong(ks, pre, post)|)
    decreases |ks|
  {
    if ks == [] {
      assert ChangedAmong(ks, pre, post) == {};
      assert t.dirtyMap + AllTrue({}) == t.dirtyMap;
    } else {
      var k, rest := ks[0], ks[1..];
      DistinctTail(ks);
      var tail := ReferencePatches(rest, pre, post);
      PatchForAccount(t, k, pre, post, tail);
      ChangedAmongCons(ks, pre, post);
      if Get(pre, k) != Get(post, k) {
        var t1 := Tally(t.dirtyMap[k := true], t.dirtyNum + 1);
        ReferenceAccount(t1, pre, post, rest);
        MarkThenUnion(t.dirtyMap, k, ChangedAmong(rest, pre, post));
      } else {
        ReferenceAccount(t, pre, post, rest);
      }
    }
  }

  lemma DistinctTail(ks: seq<string>)
    requires Distinct(ks) && ks != []
    ensures Distinct(ks[1..]) && ks[0] !in ks[1..]
  {
    var rest := ks[1..];
    forall i, j | 0 <= i < j < |rest| ensures rest[i] != rest[j] {
      assert rest[i] == ks[i + 1] && rest[j] == ks[j + 1];
    }
  }

  lemma ChangedAmongCons(ks: seq<string>, pre: State, post: State)
    requires ks != [] && ks[0] !in ks[1..]
    ensures ChangedAmong(ks, pre, post)
         == (if Get(pre, ks[0]) != Get(post, ks[0]) then {ks[0]} else {}) + ChangedAmong(ks[1..], pre, post)
    ensures ks[0] !in ChangedAmong(ks[1..], pre, post)
  {
    assert forall k :: k in ks <==> k == ks[0] || k in ks[1..];
  }

  lemma MarkThenUnion(m: DirtyMap, k: string, rest: set<string>)
    requires k !in rest
    ensures m[k := true] + AllTrue(rest) == m + AllTrue({k} + rest)
  {
  }

  /**
   * When the patch list is the one that turns the stored state into the draft
   * key by key, the draft branch read from a clean slate marks what the manual
   * diff marks and counts what it counts, provided the draft deletes no key
   * whose stored value was `undefined` and adds none. The stored state the two
   * branches commit agrees too when the draft keeps every key.
   */
  lemma StrategiesAgree(pre: State, post: State, ks: seq<string>)
    requires Distinct(ks) && (forall k :: k in ks <==> k in pre)
    requires post.Keys <= pre.Keys
    requires forall k :: k in pre && k !in post ==> pre[k] != Undefined
    ensures Account(Tally(map[], 0), pre, ReferencePatches(ks, pre, post))
         == Tally(AllTrue(Changed(pre, post)), |Changed(pre, post)|)
    ensures post.Keys == pre.Keys ==> Adopted(pre, post) == post
  {
    ReferenceAccount(Tally(map[], 0), pre, post, ks);
    assert ChangedAmong(ks, pre, post) == Changed(pre, post);
    assert map[] + AllTrue(Changed(pre, post)) == AllTrue(Changed(pre, post));
  }
  /**
   * Where the two strategies part: a write that adds key `b` to `{a: 1}`. The
   * draft branch receives immer's `add` patch, marks `b` and counts it; the
   * manual diff walks only the stored keys, so it finds nothing changed and
   * does not add `b`.
   */
  lemma StrategiesDivergeOnAddedKey()
    ensures var pre := map["a" := Num(1)];
            var post := map["a" := Num(1), "b" := Num(2)];
            && Account(Tally(map[], 0), pre, [Patch("b", Add, Num(2))]) == Tally(map["b" := true], 1)
            && Changed(pre, post) == {}
            && Adopted(pre, post) == pre
  {
    var pre := map["a" := Num(1)];
    var post := map["a" := Num(1), "b" := Num(2)];
    var ps := [Patch("b", Add, Num(2))];
    assert ps[1..] == [];
    assert Account(Tally(map[], 0), pre, ps) == Account(Tally(map["b" := true], 1), pre, []);
    assert Changed(pre, post) == {};
    assert Adopted(pre, post) == pre;
  }

  // ================================================================ batching

  /** Writes made while a batch is open never notify and never close the batch. */
  lemma {:induction false} WritesInBatchAreQuiet(c: Config, e: Engine, ws: seq<Write>)
    requires e.batching
    ensures var r := RunWrites(c, e, ws);
            r.log == e.log && r.subscribers == e.subscribers && r.batching
    decreases |ws|
  {
    if ws != [] {
      WritesInBatchAreQuiet(c, e, ws[..|ws| - 1]);
    }
  }

  /**
   * `batch(callback)` notifies once, with the snapshot of the final state, when
   * the callback's writes leave the counter positive, and not at all otherwise;
   * it returns with an empty dirty map, a zero counter and the batch closed.
   */
  lemma BatchNotifiesOnce(c: Config, e: Engine, cb: Option<seq<Write>>)
    ensures var a := RunWrites(c, e.(batching := true), if cb.Some? then cb.value else []);
            var r := BatchSpec(c, e, cb);
            && r.log == e.log + (if a.dirtyNum > 0 then Deliveries(e.subscribers, Snapshot(c, a.state)) else [])
            && r.state == a.state
            && r.dirtyMap == map[] && r.dirtyNum == 0 && !r.batching
  {
    WritesInBatchAreQuiet(c, e.(batching := true), if cb.Some? then cb.value else []);
  }

  /** In draft mode the counter never drops while a batch is open, so no earlier change is lost. */
  lemma {:induction false} DraftBatchKeepsCount(c: Config, e: Engine, ws: seq<Write>)
    requires !c.manual && e.batching
    ensures RunWrites(c, e, ws).dirtyNum >= e.dirtyNum
    decreases |ws|
  {
    if ws != [] {
      var before := RunWrites(c, e, ws[..|ws| - 1]);
      DraftBatchKeepsCount(c, e, ws[..|ws| - 1]);
      WritesInBatchAreQuiet(c, e, ws[..|ws| - 1]);
      var last := ws[|ws| - 1];
      if last.callback.Some? {
        var recipe := Recipe(c.hooks, before.state, last.callback.value.apply);
        var ps := c.patchesOf(before.state, recipe);
        AccountGrows(Tally(before.dirtyMap, before.dirtyNum), before.state, ps);
      }
    }
  }

  lemma {:induction false} AccountGrows(t: Tally, prior: State, ps: seq<Patch>)
    ensures Account(t, prior, ps).dirtyNum >= t.dirtyNum
    decreases |ps|
  {
    if ps != [] {
      AccountGrows(AccountStep(t, prior, ps[0]), prior, ps[1..]);
    }
  }

  // ---------------------------------------------------------------- concrete callbacks

  /** A configuration without hooks, in manual mode. */
  function ManualPlain(): Config
  {
    Config(Hooks(None, None, None), true, NoPatches)
  }

  function NoPatches(s: State, recipe: State -> State): seq<Patch>
  {
    []
  }

  /** `s => { s.a = 5 }` */
  function SetAToFive(s: State): State
  {
    s["a" := Num(5)]
  }

  /** `s => {}` */
  function Untouched(s: State): State
  {
    s
  }

  /**
   * The manual branch resets the dirty bookkeeping at the start of every write,
   * even inside a batch: a batch whose last write changes nothing does not
   * notify, although an earlier write of the same batch changed the state.
   */
  lemma ManualBatchForgetsEarlierWrites(subs: seq<Subscriber>)
    ensures var e := Engine(map["a" := Num(1)], map[], 0, subs, false, []);
            var ws := [Write(Some(Mutator(SetAToFive)), false), Write(Some(Mutator(Untouched)), false)];
            var r := BatchSpec(ManualPlain(), e, Some(ws));
            r.state == map["a" := Num(5)] && r.log == []
  {
    var c := ManualPlain();
    var e := Engine(map["a" := Num(1)], map[], 0, subs, false, []);
    var w1 := Write(Some(Mutator(SetAToFive)), false);
    var w2 := Write(Some(Mutator(Untouched)), false);
    var ws := [w1, w2];
    var e0 := e.(batching := true);
    var s1 := map["a" := Num(5)];
    assert SetAToFive(e0.state) == s1;
    assert Changed(e0.state, s1) == {"a"};
    assert Adopted(e0.state, s1) == s1;
    assert ws[..1] == [w1] && [w1][..0] == [] && [w1][0] == w1;
    assert RunWrites(c, e0, []) == e0;
    var e1 := RunWrites(c, e0, [w1]);
    assert e1 == SetStateSpec(c, RunWrites(c, e0, []), w1.callback, false);
    assert e1.state == s1 && e1.batching;
    assert Changed(s1, s1) == {};
    assert Adopted(s1, s1) == s1;
    var e2 := RunWrites(c, e0, ws);
    assert e2 == SetStateSpec(c, e1, w2.callback, false);
    assert e2.state == s1 && e2.dirtyNum == 0;
  }

  /**
   * `silent` only governs the write's own notification step: a silent write
   * inside a batch still leaves its counter for the batch, which then notifies
   * (lines 95-96 do not look at `silent`).
   */
  lemma SilentWriteInBatchNotifies(subs: seq<Subscriber>)
    ensures var e := Engine(map["a" := Num(1)], map[], 0, subs, false, []);
            var r := BatchSpec(ManualPlain(), e, Some([Write(Some(Mutator(SetAToFive)), true)]));
            r.state == map["a" := Num(5)] && r.log == Deliveries(subs, map["a" := Num(5)])
  {
    var c := ManualPlain();
    var e := Engine(map["a" := Num(1)], map[], 0, subs, false, []);
    var w := Write(Some(Mutator(SetAToFive)), true);
    var e0 := e.(batching := true);
    var s1 := map["a" := Num(5)];
    assert SetAToFive(e0.state) == s1;
    assert Changed(e0.state, s1) == {"a"};
    assert Adopted(e0.state, s1) == s1;
    assert [w][..0] == [] && [w][0] == w;
    assert RunWrites(c, e0, []) == e0;
    var e1 := RunWrites(c, e0, [w]);
    assert e1 == SetStateSpec(c, e0, w.callback, true);
    assert e1.state == s1 && e1.dirtyNum == 1 && e1.log == [];
  }

  /** A `dirtyCheck` hook that always answers `{b: true}`. */
  function MarkB(m: DirtyMap): Option<DirtyMap>
  {
    Some(map["b" := true])
  }

  /**
   * A `dirtyCheck` hook can mark keys the write did not touch: with a hook
   * answering `{b: true}`, `s.a = 5` on `{a: 1, b: 2}` marks both `a` and `b`,
   * while the counter stays at 1.
   */
  lemma OneKeyWriteMarksTwo(subs: seq<Subscriber>)
    ensures var c := Config(Hooks(None, Some(MarkB), None), true, NoPatches);
            var e := Engine(map["a" := Num(1), "b" := Num(2)], map[], 0, subs, false, []);
            var w := ManualWrite(c, e, SetAToFive);
            && w.dirtyMap == map["a" := true, "b" := true]
            && w.dirtyNum == 1
  {
    var s0 := map["a" := Num(1), "b" := Num(2)];
    var s1 := map["a" := Num(5), "b" := Num(2)];
    assert SetAToFive(s0) == s1;
    assert Changed(s0, s1) == {"a"};
    assert AllTrue({"a"}) == map["a" := true];
  }

  // ================================================================ the worked example

  /**
   * Default state `{a: 1, b: 2}`; `setState(s => { s.a = 5 })` in manual mode
   * without hooks: the state becomes `{a: 5, b: 2}`; before the notification
   * step `a` alone is dirty, `b` is not; every subscriber receives `{a: 5, b: 2}`
   * once; afterwards the dirty map is empty again (so `getChanged()` is `{}`)
   * while the counter stays at 1.
   */
  lemma WorkedExampleManual(subs: seq<Subscriber>)
    ensures var e := Engine(map["a" := Num(1), "b" := Num(2)], map[], 0, subs, false, []);
            var w := ManualWrite(ManualPlain(), e, SetAToFive);
            var r := SetStateSpec(ManualPlain(), e, Some(Mutator(SetAToFive)), false);
            && w.state == map["a" := Num(5), "b" := Num(2)]
            && w.dirtyMap == map["a" := true] && !Marked(w.dirtyMap, "b")
            && r.state == w.state
            && r.log == Deliveries(subs, map["a" := Num(5), "b" := Num(2)])
            && r.dirtyMap == map[] && r.dirtyNum == 1
  {
    var s0 := map["a" := Num(1), "b" := Num(2)];
    var s1 := map["a" := Num(5), "b" := Num(2)];
    assert SetAToFive(s0) == s1;
    assert Changed(s0, s1) == {"a"};
    assert Adopted(s0, s1) == s1;
    assert AllTrue({"a"}) == map["a" := true];
  }
}
