/** `Scene` of src/graphics/Scene.ts: an object registry, a list of timed
    animations, and the settings handed to WebGL.

    The registry is a JavaScript object used as a dictionary.  It is a map
    here, plus the insertion order of its names: that order is the order of
    `for … in` and of `Object.values`.  An object is seen through what the
    scene reads of it: its `zIndex`, and the physics model of a
    `PositionedObject`. */
module Scenes {
  import opened Numerics
  import opened Colors
  import opened Physics
  import opened Animations
  import opened Sequences

  /** What the scene reads of a `BasicObject`: the z-index, and the
      physics model when the object is a `PositionedObject`. */
  datatype Entity = Entity(zIndex: real, body: Option<PhysicsModel>)

  /** A `Timed` animation: one animation or a sequence of them. */
  datatype Timed = Single(one: TimedAnimation) | Sequenced(many: TimedAnimationSequence)

  // ---------------------------------------------------------------------
  // Settings

  /** `WebGL2RenderingContext.LEQUAL`, `ONE` and `ONE_MINUS_SRC_ALPHA`. */
  const LEQUAL: int := 0x0203
  const ONE: int := 1
  const ONE_MINUS_SRC_ALPHA: int := 0x0303

  datatype Settings = Settings(backgroundColor: Vec4, viewport: Dim4, enable: seq<int>, depthFunc: int,
                               blendFunc: (int, int))

  /** The `settings` object of the constructor: the colour and the viewport
      are narrowed, and a missing depth function, blend function or enable
      list takes its default. */
  function MakeSettings(backgroundColor: Color, viewport: Dimension, depthFunc: Option<int>,
                        blendFunc: Option<(int, int)>, enable: Option<seq<int>>): (r: Result<Settings, ColorError>)
    ensures r.Err? <==> NarrowColor(backgroundColor).Err?
    ensures r.Ok? ==>
      r.value.backgroundColor == NarrowColor(backgroundColor).value &&
      r.value.viewport == NarrowDimension(viewport) &&
      r.value.depthFunc == (if depthFunc.Some? then depthFunc.value else LEQUAL) &&
      r.value.blendFunc == (if blendFunc.Some? then blendFunc.value else (ONE, ONE_MINUS_SRC_ALPHA)) &&
      r.value.enable == (if enable.Some? then enable.value else [])
  {
    match NarrowColor(backgroundColor)
    case Err(e) => Err(e)
    case Ok(c) =>
      Ok(Settings(c, NarrowDimension(viewport),
        match enable case Some(v) => v case None => [],
        match depthFunc case Some(v) => v case None => LEQUAL,
        match blendFunc case Some(v) => v case None => (ONE, ONE_MINUS_SRC_ALPHA)))
  }

  // ---------------------------------------------------------------------
  // Registry helpers

  /** No name appears twice. */
  predicate Distinct(names: seq<string>)
  {
    forall i, j :: 0 <= i < j < |names| ==> names[i] != names[j]
  }

  /** The names of a list, as a set. */
  function Elements(s: seq<string>): set<string>
  {
    set n | n in s
  }

  /** The names kept by `removeObject`: those not removed, in their order. */
  function Without(names: seq<string>, removed: set<string>): (r: seq<string>)
    ensures forall n :: n in r <==> n in names && n !in removed
    ensures Distinct(names) ==> Distinct(r)
  {
    if |names| == 0 then []
    else if names[0] in removed then Without(names[1..], removed)
    else [names[0]] + Without(names[1..], removed)
  }

  /** The registry after assigning each pair in order. */
  function Assigned(m: map<string, Entity>, entries: seq<(string, Entity)>): map<string, Entity>
    decreases |entries|
  {
    if |entries| == 0 then m else Assigned(m[entries[0].0 := entries[0].1], entries[1..])
  }

  /** The insertion order after assigning each pair in order: a new name
      goes to the end, a known one keeps its place. */
  function Appended(names: seq<string>, entries: seq<(string, Entity)>): seq<string>
    decreases |entries|
  {
    if |entries| == 0 then names
    else Appended(if entries[0].0 in names then names else names + [entries[0].0], entries[1..])
  }

  /** After assigning the pairs in order, a name given in them holds the
      value of its last pair, and any other name keeps its entry. */
  lemma {:induction false} AssignedLookup(m: map<string, Entity>, entries: seq<(string, Entity)>, name: string)
    ensures name in Assigned(m, entries) <==> name in m || exists i :: 0 <= i < |entries| && entries[i].0 == name
    ensures (forall i :: 0 <= i < |entries| ==> entries[i].0 != name) && name in m ==>
      Assigned(m, entries)[name] == m[name]
    ensures forall i :: 0 <= i < |entries| && entries[i].0 == name ==>
      ((forall j :: i < j < |entries| ==> entries[j].0 != name) ==> Assigned(m, entries)[name] == entries[i].1)
    decreases |entries|
  {
    if |entries| > 0 {
      var rest := entries[1..];
      AssignedLookup(m[entries[0].0 := entries[0].1], rest, name);
      forall i | 0 <= i < |entries| && entries[i].0 == name && (forall j :: i < j < |entries| ==> entries[j].0 != name)
        ensures Assigned(m, entries)[name] == entries[i].1
      {
        if i > 0 {
          assert rest[i - 1] == entries[i];
          assert forall j :: i - 1 < j < |rest| ==> rest[j] == entries[j + 1];
        } else {
          assert forall j :: 0 <= j < |rest| ==> rest[j] == entries[j + 1];
        }
      }
      if name !in m[entries[0].0 := entries[0].1] && name in Assigned(m, entries) {
        var i :| 0 <= i < |rest| && rest[i].0 == name;
        assert entries[i + 1].0 == name;
      }
      if exists i :: 0 <= i < |entries| && entries[i].0 == name {
        var i :| 0 <= i < |entries| && entries[i].0 == name;
        if i > 0 {
          assert rest[i - 1].0 == name;
        }
      }
    }
  }

  // ---------------------------------------------------------------------
  // Draw order

  /** `b.zIndex - a.zIndex` as a sort, one name at a time: puts `name`
      in front of the first entry it is not below, keeping its
      place among equal z-indices ahead of later names. */
  function Insert(m: map<string, Entity>, name: string, sorted: seq<string>): (r: seq<string>)
    requires name in m && forall n :: n in sorted ==> n in m
    ensures multiset(r) == multiset(sorted) + multiset{name}
    ensures forall n :: n in r ==> n in m
  {
    if |sorted| == 0 || m[sorted[0]].zIndex <= m[name].zIndex then [name] + sorted
    else
      assert sorted == [sorted[0]] + sorted[1..];
      [sorted[0]] + Insert(m, name, sorted[1..])
  }

  /** The order in which `draw` visits the objects: `Object.values` in
      insertion order, then a stable sort by decreasing z-index
      (`DrawOrderDescending`, `DrawOrderStable`). */
  function DrawOrder(m: map<string, Entity>, names: seq<string>): (r: seq<string>)
    requires forall n :: n in names ==> n in m
    ensures multiset(r) == multiset(names)
    ensures forall n :: n in r ==> n in m
  {
    if |names| == 0 then []
    else
      assert names == [names[0]] + names[1..];
      Insert(m, names[0], DrawOrder(m, names[1..]))
  }

  /** Z-indices never increase along the sequence. */
  predicate ZDescending(m: map<string, Entity>, s: seq<string>)
    requires forall n :: n in s ==> n in m
  {
    forall i, j :: 0 <= i < j < |s| ==> m[s[i]].zIndex >= m[s[j]].zIndex
  }

  lemma {:induction false} InsertDescending(m: map<string, Entity>, name: string, sorted: seq<string>)
    requires name in m && forall n :: n in sorted ==> n in m
    requires ZDescending(m, sorted)
    ensures ZDescending(m, Insert(m, name, sorted))
    ensures |Insert(m, name, sorted)| > 0 &&
      (Insert(m, name, sorted)[0] == name || (|sorted| > 0 && Insert(m, name, sorted)[0] == sorted[0]))
    decreases |sorted|
  {
    if |sorted| > 0 && m[sorted[0]].zIndex > m[name].zIndex {
      var tail := sorted[1..];
      assert ZDescending(m, tail);
      InsertDescending(m, name, tail);
      var r := Insert(m, name, sorted);
      assert r == [sorted[0]] + Insert(m, name, tail);
      forall k | 0 <= k < |Insert(m, name, tail)|
        ensures m[sorted[0]].zIndex >= m[Insert(m, name, tail)[k]].zIndex
      {
        var x := Insert(m, name, tail)[k];
        assert x in multiset(Insert(m, name, tail));
        assert x == name || x in tail;
      }
    }
  }

  /** `draw` visits every object once, from the highest z-index down. */
  lemma {:induction false} DrawOrderDescending(m: map<string, Entity>, names: seq<string>)
    requires forall n :: n in names ==> n in m
    ensures ZDescending(m, DrawOrder(m, names))
    ensures multiset(DrawOrder(m, names)) == multiset(names)
    decreases |names|
  {
    if |names| > 0 {
      DrawOrderDescending(m, names[1..]);
      InsertDescending(m, names[0], DrawOrder(m, names[1..]));
    }
  }

  /** The names of `s` whose z-index is `z`, in their order in `s`. */
  function OnLevel(m: map<string, Entity>, s: seq<string>, z: real): seq<string>
    requires forall n :: n in s ==> n in m
  {
    if |s| == 0 then []
    else (if m[s[0]].zIndex == z then [s[0]] else []) + OnLevel(m, s[1..], z)
  }

  /** Inserting a name puts it ahead of every name of its own z-index. */
  lemma {:induction false} InsertLevel(m: map<string, Entity>, name: string, sorted: seq<string>, z: real)
    requires name in m && forall n :: n in sorted ==> n in m
    ensures OnLevel(m, Insert(m, name, sorted), z) ==
      (if m[name].zIndex == z then [name] else []) + OnLevel(m, sorted, z)
    decreases |sorted|
  {
    if |sorted| == 0 || m[sorted[0]].zIndex <= m[name].zIndex {
      assert ([name] + sorted)[1..] == sorted;
    } else {
      var r := Insert(m, name, sorted);
      InsertLevel(m, name, sorted[1..], z);
      assert r[0] == sorted[0] && r[1..] == Insert(m, name, sorted[1..]);
    }
  }

  /** The sort is stable: among the objects of one z-index, `draw` keeps
      their insertion order. */
  lemma {:induction false} DrawOrderStable(m: map<string, Entity>, names: seq<string>, z: real)
    requires forall n :: n in names ==> n in m
    ensures OnLevel(m, DrawOrder(m, names), z) == OnLevel(m, names, z)
    decreases |names|
  {
    if |names| > 0 {
      DrawOrderStable(m, names[1..], z);
      InsertLevel(m, names[0], DrawOrder(m, names[1..]), z);
    }
  }

  // ---------------------------------------------------------------------
  // The scene

  class Scene {
    /** `objects`: the registry, with its names in insertion order. */
    var objects: map<string, Entity>
    var names: seq<string>
    var animations: seq<Timed>
    const settings: Settings

    ghost predicate Valid()
      reads this
    {
      Distinct(names) && (forall n :: n in names <==> n in objects)
    }

    /** The constructor once the settings are known: an empty registry and
        no animations. */
    constructor (settings: Settings)
      ensures Valid() && objects == map[] && names == [] && animations == [] && this.settings == settings
    {
      objects := map[];
      names := [];
      animations := [];
      this.settings := settings;
    }

    /** `addObject(name, value)`: the name now maps to the value; a new
        name goes last in the order, a known one keeps its place. */
    method AddObject(name: string, value: Entity)
      requires Valid()
      modifies this
      ensures Valid() && animations == old(animations)
      ensures objects == old(objects)[name := value]
      ensures names == if name in old(objects) then old(names) else old(names) + [name]
    {
      if name !in objects {
        names := names + [name];
      }
      objects := objects[name := value];
    }

    /** `addObject(entries)` and `addObject(record)`: each pair assigned in
        order, so a later duplicate wins. */
    method AddObjects(entries: seq<(string, Entity)>)
      requires Valid()
      modifies this
      ensures Valid() && animations == old(animations)
      ensures objects == Assigned(old(objects), entries)
      ensures names == Appended(old(names), entries)
    {
      var i := 0;
      while i < |entries|
        invariant 0 <= i <= |entries| && Valid() && animations == old(animations)
        invariant Assigned(objects, entries[i..]) == Assigned(old(objects), entries)
        invariant Appended(names, entries[i..]) == Appended(old(names), entries)
      {
        assert entries[i..][1..] == entries[i + 1..];
        AddObject(entries[i].0, entries[i].1);
        i := i + 1;
      }
    }

    /** `delete this.objects[name]` for one name. */
    method RemoveOne(name: string)
      requires Valid()
      modifies this
      ensures Valid() && animations == old(animations)
      ensures objects == old(objects) - {name}
      ensures names == Without(old(names), {name})
    {
      objects := objects - {name};
      names := Without(names, {name});
    }

    /** `removeObject(...names)`: exactly the given names are deleted;
        names that are not registered are ignored. */
    method RemoveObject(removed: seq<string>)
      requires Valid()
      modifies this
      ensures Valid() && animations == old(animations)
      ensures objects == old(objects) - Elements(removed)
      ensures names == Without(old(names), Elements(removed))
    {
      var i := 0;
      ghost var gone: set<string> := {};
      WithoutNothing(names);
      while i < |removed|
        invariant 0 <= i <= |removed| && Valid() && animations == old(animations)
        invariant gone == Elements(removed[..i])
        invariant objects == old(objects) - gone
        invariant names == Without(old(names), gone)
      {
        WithoutTwice(old(names), gone, removed[i]);
        RemoveTwice(old(objects), gone, removed[i]);
        RemoveOne(removed[i]);
        ElementsStep(removed, i);
        gone := gone + {removed[i]};
        i := i + 1;
      }
      assert removed[..i] == removed;
    }

    /** `clearObjects()`: a new, empty registry. */
    method ClearObjects()
      modifies this
      ensures Valid() && objects == map[] && names == [] && animations == old(animations)
    {
      objects := map[];
      names := [];
    }

    /** The names in the order `draw` visits their objects. */
    function DrawSequence(): (r: seq<string>)
      requires Valid()
      reads this
      ensures multiset(r) == multiset(names)
    {
      DrawOrder(objects, names)
    }

    /** The physics models of the registered objects. */
    ghost function Bodies(): set<PhysicsModel>
      reads this
    {
      BodiesOf(objects)
    }

    /** Everything a tick of the registered physics models may change. */
    ghost function BodyRepr(): set<object>
      reads this
    {
      ReprOf(objects)
    }

    /** Every physics model is valid, and two names never share a model or
        any part of one. */
    ghost predicate BodiesSeparate()
      reads this
    {
      SeparateBodies(objects)
    }

    /** `updateLocations(dt)`: every `PositionedObject` takes one physics
        step, in insertion order; other objects are skipped. */
    method UpdateLocations(dt: real)
      requires Valid() && BodiesSeparate()
      modifies BodyRepr()
      ensures forall b :: b in Bodies() ==>
        b.Valid() && b.mass == old(b.mass) && b.State() == Step(old(b.mass), old(b.State()), dt) &&
        b.local.Fields() == old(b.local.Fields()).(translate := b.State().position) &&
        b.global.Fields() == b.local.Fields() && b.local.Composed() && b.global.Composed()
    {
      NoSceneInRepr(this, objects);
      StepAll(objects, names, dt);
    }

    /** `updateAnimations(time)`: each timed animation is updated in order;
        the first one that throws ends the call.  `done` is the number
        updated without throwing.  When no update changes the percent of
        another, each of those holds the percent its own update set; when no
        two updates touch a common object, each updated sequence also holds
        its covering entry's percent. */
    method UpdateAnimations(time: real) returns (r: Outcome<AnimError>, done: nat)
      modifies Footprint(animations)
      ensures done <= |animations| && (r.Pass? <==> done == |animations|)
      ensures r.Fail? ==> animations[done].Sequenced?
      ensures forall i :: 0 <= i < |animations| && animations[i].Sequenced? && Progress(animations[i], time).NaN? ==>
        done <= i
      ensures old(Independent(animations)) ==>
        forall i :: 0 <= i < done ==> Percent(animations[i]) == UpdatedPercent(animations[i], time, old(Percent(animations[i])))
      ensures old(Disjoint(animations)) ==> CoveredUpTo(animations, done)
    {
      r, done := UpdateAll(animations, time);
    }

    /** `addAnimation(...animations)`: appended, in argument order. */
    method AddAnimation(added: seq<Timed>)
      modifies this
      ensures animations == old(animations) + added
      ensures objects == old(objects) && names == old(names)
    {
      animations := animations + added;
    }
  }

  /** The physics models registered in `objects`. */
  ghost function BodiesOf(objects: map<string, Entity>): set<PhysicsModel>
  {
    set n | n in objects && objects[n].body.Some? :: objects[n].body.value
  }

  /** Everything a tick of those physics models may change. */
  ghost function ReprOf(objects: map<string, Entity>): set<object>
  {
    set b, o | b in BodiesOf(objects) && o in b.Repr() :: o
  }

  /** Every physics model is valid, and two names never share a model or
      any part of one. */
  ghost predicate SeparateBodies(objects: map<string, Entity>)
  {
    (forall b :: b in BodiesOf(objects) ==> b.Valid()) &&
    forall n, m :: n in objects && m in objects && n != m && objects[n].body.Some? && objects[m].body.Some? ==>
      Separate(objects[n].body.value, objects[m].body.value)
  }

  /** A tick of the physics models never changes a scene. */
  lemma NoSceneInRepr(s: Scene, objects: map<string, Entity>)
    ensures s !in ReprOf(objects)
  {
  }

  /** The loop of `updateLocations(dt)` over the registry `objects` with
      its names in insertion order. */
  method StepAll(objects: map<string, Entity>, names: seq<string>, dt: real)
    requires Distinct(names) && (forall n :: n in names <==> n in objects) && SeparateBodies(objects)
    modifies ReprOf(objects)
    ensures forall b :: b in BodiesOf(objects) ==>
      b.Valid() && b.mass == old(b.mass) && b.State() == Step(old(b.mass), old(b.State()), dt) &&
      b.local.Fields() == old(b.local.Fields()).(translate := b.State().position) &&
      b.global.Fields() == b.local.Fields() && b.local.Composed() && b.global.Composed()
  {
    ghost var before := map b | b in BodiesOf(objects) :: Snapshot(b.mass, b.State(), b.local.Fields());
    var i := 0;
    while i < |names|
      invariant 0 <= i <= |names|
      invariant forall k :: 0 <= k < |names| && objects[names[k]].body.Some? ==>
        objects[names[k]].body.value in before &&
        Stepped(objects[names[k]].body.value, dt, before[objects[names[k]].body.value], k < i)
    {
      StepOne(objects, names, i, dt, before);
      i := i + 1;
    }
    forall b | b in BodiesOf(objects)
      ensures b in before && Stepped(b, dt, before[b], true)
    {
      var n :| n in objects && objects[n].body == Some(b);
      var k :| 0 <= k < |names| && names[k] == n;
    }
  }

  /** One turn of that loop: the model of the i-th name, if any, takes its
      step; every other model is as it was. */
  method StepOne(objects: map<string, Entity>, names: seq<string>, i: int, dt: real,
                 ghost before: map<PhysicsModel, Snapshot>)
    requires Distinct(names) && (forall n :: n in names <==> n in objects) && SeparateBodies(objects)
    requires 0 <= i < |names|
    requires forall k :: 0 <= k < |names| && objects[names[k]].body.Some? ==>
      objects[names[k]].body.value in before &&
      Stepped(objects[names[k]].body.value, dt, before[objects[names[k]].body.value], k < i)
    modifies ReprOf(objects)
    ensures forall k :: 0 <= k < |names| && objects[names[k]].body.Some? ==>
      objects[names[k]].body.value in before &&
      Stepped(objects[names[k]].body.value, dt, before[objects[names[k]].body.value], k < i + 1)
  {
    var obj := objects[names[i]];
    if obj.body.Some? {
      var b := obj.body.value;
      assert b in BodiesOf(objects);
      assert b.Repr() <= ReprOf(objects);
      forall k | 0 <= k < |names| && k != i && objects[names[k]].body.Some?
        ensures Separate(b, objects[names[k]].body.value)
      {
      }
      label L:
      b.UpdateLocation(dt);
      forall k | 0 <= k < |names| && k != i && objects[names[k]].body.Some?
        ensures Stepped(objects[names[k]].body.value, dt, before[objects[names[k]].body.value], k < i)
      {
        var c := objects[names[k]].body.value;
        assert old@L(Stepped(c, dt, before[c], k < i));
        assert unchanged@L(c, c.local, c.global, c.local.matrix.data, c.global.matrix.data);
      }
    }
  }

  /** What a tick reads of a model before it starts. */
  datatype Snapshot = Snapshot(mass: Mass, state: Motion, local: Transforms.Decomposition)

  /** A model during the loop of `updateLocations`, against its snapshot
      from before the loop: once the loop has reached it, stepped once, with
      the new translation in its local transform and the local fields copied
      into its global transform, both recomposed; as it was otherwise. */
  ghost predicate Stepped(b: PhysicsModel, dt: real, before: Snapshot, reached: bool)
    reads b, b.local, b.global, b.local.matrix.data, b.global.matrix.data
  {
    b.Valid() && b.mass == before.mass &&
    if reached then
      b.State() == Step(before.mass, before.state, dt) &&
      b.local.Fields() == before.local.(translate := b.State().position) &&
      b.global.Fields() == b.local.Fields() && b.local.Composed() && b.global.Composed()
    else
      b.State() == before.state && b.local.Fields() == before.local
  }

  /** The object whose percent an update sets. */
  function Holder(t: Timed): object
  {
    match t
    case Single(a) => a.animation
    case Sequenced(q) => q.sequence
  }

  /** That percent. */
  function Percent(t: Timed): real
    reads Holder(t)
  {
    match t
    case Single(a) => a.animation.percent
    case Sequenced(q) => q.sequence.percent
  }

  /** The progress `update(time)` computes from `t0` and `dur`. */
  function Progress(t: Timed, time: real): Num
    reads if t.Single? then {t.one} else {t.many}
  {
    match t
    case Single(a) => ClampedProgress(time, a.t0, a.dur)
    case Sequenced(q) => ClampedProgress(time, q.t0, q.dur)
  }

  /** The percent after an update that started from `before`. */
  function UpdatedPercent(t: Timed, time: real, before: real): real
    reads if t.Single? then {t.one} else {t.many}
  {
    var p := Progress(t, time);
    if p.Fin? then p.v else before
  }

  /** Everything an update of `t` may change. */
  function Touched(t: Timed): set<object>
    reads if t.Sequenced? then {t.many.sequence} else {}
  {
    match t
    case Single(a) => {a.animation}
    case Sequenced(q) => {q.sequence} + q.sequence.Anims()
  }

  function Footprint(ts: seq<Timed>): set<object>
    reads set i | 0 <= i < |ts| && ts[i].Sequenced? :: ts[i].many.sequence
  {
    set i, o | 0 <= i < |ts| && o in Touched(ts[i]) :: o
  }

  /** After a sequence's update: some entry covers the sequence's point,
      and the first one, unless its duration is zero, holds the position
      inside it as its animation's percent. */
  ghost predicate CoveringUpdated(q: AnimationSequence)
    reads q, q.Anims()
  {
    q.Playing() >= 0 &&
    var e := q.entries[q.Playing()];
    e.dur != 0.0 ==> e.anim.percent == Clamp(Position(e, q.Point()), 0.0, 1.0)
  }

  /** Every sequence among the first n updates covers its playing point. */
  ghost predicate CoveredUpTo(ts: seq<Timed>, n: int)
    reads set i | 0 <= i < |ts| && ts[i].Sequenced? :: ts[i].many.sequence
    reads set i, o | 0 <= i < |ts| && ts[i].Sequenced? && o in ts[i].many.sequence.Anims() :: o
  {
    forall i :: 0 <= i < n && i < |ts| && ts[i].Sequenced? ==> CoveringUpdated(ts[i].many.sequence)
  }

  /** No two updates touch a common object. */
  ghost predicate Disjoint(ts: seq<Timed>)
    reads set i | 0 <= i < |ts| && ts[i].Sequenced? :: ts[i].many.sequence
  {
    forall i, j :: 0 <= i < |ts| && 0 <= j < |ts| && i != j ==> Apart(ts, i, j)
  }

  /** The i-th and j-th updates touch no common object. */
  ghost predicate Apart(ts: seq<Timed>, i: int, j: int)
    requires 0 <= i < |ts| && 0 <= j < |ts|
    reads set i | 0 <= i < |ts| && ts[i].Sequenced? :: ts[i].many.sequence
  {
    Touched(ts[i]) !! Touched(ts[j])
  }

  /** No update changes the percent another one sets. */
  ghost predicate Independent(ts: seq<Timed>)
    reads set i | 0 <= i < |ts| && ts[i].Sequenced? :: ts[i].many.sequence
  {
    forall i, j :: 0 <= i < |ts| && 0 <= j < |ts| && i != j ==> Holder(ts[i]) !in Touched(ts[j])
  }

  /** The k-th update touches nothing an earlier one touches. */
  ghost predicate ApartFromEarlier(ts: seq<Timed>, k: int)
    requires 0 <= k < |ts|
    reads set i | 0 <= i < |ts| && ts[i].Sequenced? :: ts[i].many.sequence
  {
    forall i :: 0 <= i < k ==> Apart(ts, i, k)
  }

  /** An update touches the same objects as long as the entries of its
      sequence are kept. */
  twostate lemma SameTouched(t: Timed)
    requires t.Sequenced? ==> t.many.sequence.entries == old(t.many.sequence.entries)
    ensures Touched(t) == old(Touched(t))
  {
  }

  /** The only sequence an update touches is its own. */
  lemma TouchedSequence(t: Timed, s: AnimationSequence)
    requires s in Touched(t)
    ensures t.Sequenced? && s == t.many.sequence
  {
  }

  /** No update touches the start and duration of a timed animation. */
  lemma ClocksUntouched(t: Timed, u: Timed)
    ensures u.Single? ==> u.one !in Touched(t)
    ensures u.Sequenced? ==> u.many !in Touched(t)
  {
  }

  /** The loop of `updateAnimations(time)` over the list `ts`. */
  method UpdateAll(ts: seq<Timed>, time: real) returns (r: Outcome<AnimError>, done: nat)
    modifies Footprint(ts)
    ensures done <= |ts| && (r.Pass? <==> done == |ts|)
    ensures r.Fail? ==> ts[done].Sequenced?
    ensures forall i :: 0 <= i < |ts| && ts[i].Sequenced? && Progress(ts[i], time).NaN? ==> done <= i
    ensures old(Independent(ts)) ==>
      forall i :: 0 <= i < done ==> Percent(ts[i]) == UpdatedPercent(ts[i], time, old(Percent(ts[i])))
    ensures old(Disjoint(ts)) ==> CoveredUpTo(ts, done)
  {
    ghost var independent := Independent(ts);
    ghost var disjoint := Disjoint(ts);
    ghost var footprint := Footprint(ts);
    done := 0;
    while done < |ts|
      invariant done <= |ts|
      invariant forall i :: 0 <= i < |ts| && ts[i].Sequenced? ==>
        ts[i].many.sequence.entries == old(ts[i].many.sequence.entries)
      invariant forall i :: 0 <= i < done ==> !(ts[i].Sequenced? && Progress(ts[i], time).NaN?)
      invariant independent ==> forall i :: 0 <= i < |ts| ==>
        Percent(ts[i]) ==
          if i < done then UpdatedPercent(ts[i], time, old(Percent(ts[i])))
          else old(Percent(ts[i]))
      invariant disjoint ==> CoveredUpTo(ts, done)
    {
      SameTouched(ts[done]);
      if disjoint {
        forall i | 0 <= i < done
          ensures Apart(ts, i, done)
        {
          SameTouched(ts[i]);
          assert old(Apart(ts, i, done));
        }
      }
      assert Touched(ts[done]) <= footprint;
      var res := UpdateNth(ts, done, time);
      assert independent ==> forall i :: 0 <= i < |ts| && i != done ==>
        Holder(ts[i]) !in old(Touched(ts[done]));
      if res.Err? {
        return Fail(res.error), done;
      }
      done := done + 1;
    }
    r := Pass;
  }

  /** `v.update(time)` on one timed animation: only a sequence throws, and
      one whose progress is NaN does; the percent is the updated one, and
      a sequence that does not throw has its covering entry updated. */
  method UpdateOne(t: Timed, time: real) returns (r: Result<Num, AnimError>)
    modifies Touched(t)
    ensures r.Err? ==> t.Sequenced?
    ensures t.Sequenced? && Progress(t, time).NaN? ==> r.Err?
    ensures Percent(t) == UpdatedPercent(t, time, old(Percent(t)))
    ensures t.Sequenced? ==> t.many.sequence.entries == old(t.many.sequence.entries)
    ensures t.Sequenced? && r.Ok? ==> CoveringUpdated(t.many.sequence)
  {
    match t {
      case Single(a) =>
        var v := a.Update(time);
        r := Ok(v);
      case Sequenced(q) =>
        r := q.Update(time);
    }
  }

  /** `v.update(time)` on the k-th timed animation; only a sequence
      throws.  Nothing outside what the update touches changes: the
      entries of every sequence, the clocks of every timed animation, and
      every percent held by an object the update does not touch. */
  method UpdateNth(ts: seq<Timed>, k: int, time: real) returns (r: Result<Num, AnimError>)
    requires 0 <= k < |ts|
    modifies Touched(ts[k])
    ensures r.Err? ==> ts[k].Sequenced?
    ensures ts[k].Sequenced? && Progress(ts[k], time).NaN? ==> r.Err?
    ensures Percent(ts[k]) == UpdatedPercent(ts[k], time, old(Percent(ts[k])))
    ensures forall i :: 0 <= i < |ts| && ts[i].Sequenced? ==> ts[i].many.sequence.entries == old(ts[i].many.sequence.entries)
    ensures forall i :: 0 <= i < |ts| ==> Progress(ts[i], time) == old(Progress(ts[i], time))
    ensures forall i :: 0 <= i < |ts| && Holder(ts[i]) !in old(Touched(ts[k])) ==> Percent(ts[i]) == old(Percent(ts[i]))
    ensures ts[k].Sequenced? && r.Ok? ==> CoveringUpdated(ts[k].many.sequence)
    ensures old(ApartFromEarlier(ts, k)) && old(CoveredUpTo(ts, k)) ==> CoveredUpTo(ts, k)
    ensures old(ApartFromEarlier(ts, k)) && old(CoveredUpTo(ts, k)) && r.Ok? ==> CoveredUpTo(ts, k + 1)
  {
    forall i | 0 <= i < |ts| && ts[i].Sequenced? && ts[i].many.sequence in Touched(ts[k])
      ensures ts[k].Sequenced? && ts[i].many.sequence == ts[k].many.sequence
    {
      TouchedSequence(ts[k], ts[i].many.sequence);
    }
    forall i | 0 <= i < |ts|
      ensures ts[i].Single? ==> ts[i].one !in Touched(ts[k])
      ensures ts[i].Sequenced? ==> ts[i].many !in Touched(ts[k])
    {
      ClocksUntouched(ts[k], ts[i]);
    }
    r := UpdateOne(ts[k], time);
    if old(ApartFromEarlier(ts, k)) && old(CoveredUpTo(ts, k)) {
      forall i | 0 <= i < k && ts[i].Sequenced?
        ensures CoveringUpdated(ts[i].many.sequence)
      {
        assert old(Apart(ts, i, k));
      }
      assert CoveredUpTo(ts, k);
    }
  }

  /** One more name of the list, one more element of its set. */
  lemma ElementsStep(s: seq<string>, i: int)
    requires 0 <= i < |s|
    ensures Elements(s[..i + 1]) == Elements(s[..i]) + {s[i]}
  {
    assert s[..i + 1] == s[..i] + [s[i]];
  }

  /** Deleting a set of keys and then one more is deleting their union. */
  lemma RemoveTwice(m: map<string, Entity>, a: set<string>, n: string)
    ensures (m - a) - {n} == m - (a + {n})
  {
  }

  /** Removing no name keeps the list. */
  lemma {:induction false} WithoutNothing(names: seq<string>)
    ensures Without(names, {}) == names
    decreases |names|
  {
    if |names| > 0 {
      WithoutNothing(names[1..]);
      assert names == [names[0]] + names[1..];
    }
  }

  /** Removing a set of names and then one more is removing their union. */
  lemma {:induction false} WithoutTwice(names: seq<string>, a: set<string>, n: string)
    ensures Without(Without(names, a), {n}) == Without(names, a + {n})
    decreases |names|
  {
    if |names| > 0 {
      WithoutTwice(names[1..], a, n);
    }
  }
}
