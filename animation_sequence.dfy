/** `AnimationSequence` and `TimedAnimationSequence` of src/animation.

    A sequence plays its entries one after another: entry `i` starts at
    `s`, the sum of the durations before it, and lasts `dur`.  The start
    offsets are kept as prefix sums by `add` (which appends at the current
    length) and by `remove` (whose loop recomputes every start from the
    removed position on). */
module Sequences {
  import opened Numerics
  import opened Animations

  /** One element of `#sequence`: `{anim, s, dur}`. */
  datatype Entry = Entry(anim: Animation, s: real, dur: real)

  /** An argument of the constructor: an entry without its start, whose
      `dur` may be missing. */
  datatype Item = Item(anim: Animation, dur: Option<real>)

  /** The first constructor argument: a number becomes the offset, anything
      else is taken as the first entry, and a missing one is dereferenced as
      an entry. */
  datatype FirstArgument = Offset(offset: real) | Leading(item: Item) | Omitted

  /** A JavaScript `TypeError`: a property read on `undefined`. */
  datatype AnimError = TypeError

  /** `add`'s default duration. */
  function DurOf(item: Item): real
  {
    if item.dur.Some? then item.dur.value else 1.0
  }

  /** The total duration: `length`'s `reduce`. */
  function SumDur(es: seq<Entry>): real
    decreases |es|
  {
    if |es| == 0 then 0.0 else SumDur(es[..|es| - 1]) + es[|es| - 1].dur
  }

  /** Every start offset is the sum of the durations before it. */
  predicate PrefixStarts(es: seq<Entry>)
  {
    forall i :: 0 <= i < |es| ==> es[i].s == SumDur(es[..i])
  }

  /** What the entries are apart from their starts: animation and duration,
      in order. */
  function Shape(es: seq<Entry>): (r: seq<(Animation, real)>)
    ensures |r| == |es|
    ensures forall i :: 0 <= i < |es| ==> r[i] == (es[i].anim, es[i].dur)
  {
    seq(|es|, i requires 0 <= i < |es| => (es[i].anim, es[i].dur))
  }

  /** The predicate of `find`/`findIndex`: the entry's span contains `p`. */
  predicate Covers(e: Entry, p: real)
  {
    e.s <= p && e.s + e.dur >= p
  }

  /** Where `p` falls inside the entry, as a fraction of its duration. */
  function Position(e: Entry, p: real): real
    requires e.dur != 0.0
  {
    (p - e.s) / e.dur
  }

  /** `findIndex(covers p)`: the first covering entry, or -1. */
  function FirstCovering(es: seq<Entry>, p: real): (r: int)
    ensures -1 <= r < |es|
    ensures r >= 0 ==> Covers(es[r], p) && forall j :: 0 <= j < r ==> !Covers(es[j], p)
    ensures r == -1 ==> forall j :: 0 <= j < |es| ==> !Covers(es[j], p)
    decreases |es|
  {
    if |es| == 0 then -1
    else if Covers(es[0], p) then 0
    else
      var k := FirstCovering(es[1..], p);
      assert forall j :: 1 <= j < |es| ==> es[j] == es[1..][j - 1];
      if k < 0 then -1 else k + 1
  }

  /** The total duration depends only on the durations. */
  lemma {:induction false} SumDurOfShape(a: seq<Entry>, b: seq<Entry>)
    requires Shape(a) == Shape(b)
    ensures SumDur(a) == SumDur(b)
    decreases |a|
  {
    if |a| > 0 {
      assert Shape(a[..|a| - 1]) == Shape(b[..|b| - 1]) by {
        assert forall i :: 0 <= i < |a| - 1 ==> Shape(a)[i] == Shape(b)[i];
      }
      SumDurOfShape(a[..|a| - 1], b[..|b| - 1]);
      assert Shape(a)[|a| - 1] == Shape(b)[|b| - 1];
    }
  }

  /** Prefix sums fix the starts: two valid sequences with the same shape
      are equal. */
  lemma StartsDetermined(a: seq<Entry>, b: seq<Entry>)
    requires PrefixStarts(a) && PrefixStarts(b) && Shape(a) == Shape(b)
    ensures a == b
  {
    forall i | 0 <= i < |a|
      ensures a[i] == b[i]
    {
      assert Shape(a[..i]) == Shape(b[..i]) by {
        assert forall j :: 0 <= j < i ==> Shape(a)[j] == Shape(b)[j];
      }
      SumDurOfShape(a[..i], b[..i]);
      assert Shape(a)[i] == Shape(b)[i];
    }
  }

  /** Removing one entry removes its duration from the total. */
  lemma {:induction false} SumDurRemove(a: seq<Entry>, id: int)
    requires 0 <= id < |a|
    ensures SumDur(a[..id] + a[id + 1..]) == SumDur(a) - a[id].dur
    decreases |a|
  {
    var init := a[..|a| - 1];
    if id == |a| - 1 {
      assert a[..id] + a[id + 1..] == init;
    } else {
      SumDurRemove(init, id);
      assert init[..id] + init[id + 1..] == (a[..id] + a[id + 1..])[..|a| - 2];
    }
  }

  /** Every prefix of a sequence with prefix-sum starts has them too. */
  lemma PrefixStartsInit(es: seq<Entry>, n: int)
    requires PrefixStarts(es) && 0 <= n <= |es|
    ensures PrefixStarts(es[..n])
    ensures forall j :: 0 <= j < n ==> es[..n][j].s == SumDur(es[..n][..j])
  {
    forall j | 0 <= j < n
      ensures es[..n][j].s == SumDur(es[..n][..j])
    {
      assert es[..n][..j] == es[..j];
    }
  }

  /** Deleting entry `id` keeps the entries before it, and their starts. */
  lemma RemoveKeepsPrefix(es: seq<Entry>, id: int, r: seq<Entry>)
    requires PrefixStarts(es) && 0 <= id < |es| && r == es[..id] + es[id + 1..]
    ensures r[..id] == es[..id]
    ensures forall j :: 0 <= j < id ==> r[j].s == SumDur(r[..j])
  {
    assert r[..id] == es[..id];
    forall j | 0 <= j < id
      ensures r[j].s == SumDur(r[..j])
    {
      assert r[..j] == es[..j];
    }
  }

  /** One step of `remove`'s loop: once the starts before `i` are prefix
      sums, setting start `i` to the previous entry's end (0 for the first)
      makes it one too, and nothing else changes. */
  lemma RestartStep(before: seq<Entry>, i: int, after: seq<Entry>)
    requires 0 <= i < |before|
    requires forall j :: 0 <= j < i ==> before[j].s == SumDur(before[..j])
    requires after == before[i := before[i].(s := if i == 0 then 0.0 else before[i - 1].s + before[i - 1].dur)]
    ensures forall j :: 0 <= j <= i ==> after[j].s == SumDur(after[..j])
    ensures Shape(after) == Shape(before) && after[..i] == before[..i]
  {
    assert after[..i] == before[..i];
    forall j | 0 <= j < i
      ensures after[..j] == before[..j]
    {
      assert after[..j] == after[..i][..j];
    }
    if i > 0 {
      assert before[..i][..i - 1] == before[..i - 1];
    }
  }

  /** With non-negative durations every point of [0, length] is covered by
      some entry of a non-empty valid sequence, so `remove` and `value` find
      one. */
  lemma {:induction false} Covered(es: seq<Entry>, p: real)
    requires PrefixStarts(es) && |es| > 0 && 0.0 <= p <= SumDur(es)
    requires forall i :: 0 <= i < |es| ==> es[i].dur >= 0.0
    ensures FirstCovering(es, p) >= 0
    decreases |es|
  {
    var n := |es| - 1;
    var init := es[..n];
    assert es[n].s == SumDur(init);
    if p < SumDur(init) {
      assert PrefixStarts(init) by {
        forall i | 0 <= i < n
          ensures init[i].s == SumDur(init[..i])
        {
          assert init[..i] == es[..i];
        }
      }
      if n == 0 {
        assert false;
      }
      Covered(init, p);
      var k := FirstCovering(init, p);
      assert Covers(es[k], p);
    } else {
      assert Covers(es[n], p);
    }
  }

  class AnimationSequence {
    var percent: real
    var offset: real
    var entries: seq<Entry>

    ghost predicate Valid()
      reads this
    {
      0.0 <= percent <= 1.0 && PrefixStarts(entries)
    }

    /** The `length` getter: the sum of the durations. */
    function Length(): real
      reads this
    {
      SumDur(entries)
    }

    /** Every animation an entry plays. */
    function Anims(): set<Animation>
      reads this
    {
      set e | e in entries :: e.anim
    }

    /** The constructor after the first argument has been sorted out: the
        offset, then each item added in order with its duration or 1. */
    constructor (offset: real, items: seq<Item>)
      ensures Valid() && percent == 0.0 && this.offset == offset
      ensures Shape(entries) == seq(|items|, i requires 0 <= i < |items| => (items[i].anim, DurOf(items[i])))
    {
      percent := 0.0;
      this.offset := offset;
      entries := [];
      new;
      var i := 0;
      while i < |items|
        invariant 0 <= i <= |items|
        invariant Valid() && percent == 0.0 && this.offset == offset
        invariant Shape(entries) == seq(i, k requires 0 <= k < i => (items[k].anim, DurOf(items[k])))
      {
        Add(items[i].anim, DurOf(items[i]));
        i := i + 1;
      }
    }

    /** `percent` setter, inherited from Blank. */
    method SetPercent(v: real)
      modifies this
      ensures percent == Clamp(v, 0.0, 1.0)
      ensures offset == old(offset) && entries == old(entries)
    {
      percent := Clamp(v, 0.0, 1.0);
    }

    /** `add(anim, dur = 1)`: appends an entry starting at the current
        length, which then grows by `dur`. */
    method Add(anim: Animation, dur: real := 1.0)
      modifies this
      ensures entries == old(entries) + [Entry(anim, old(Length()), dur)]
      ensures Length() == old(Length()) + dur
      ensures percent == old(percent) && offset == old(offset)
      ensures old(Valid()) ==> Valid()
    {
      entries := entries + [Entry(anim, Length(), dur)];
      assert entries[..|entries| - 1] == old(entries);
      forall i | 0 <= i < |old(entries)|
        ensures entries[..i] == old(entries)[..i]
      {
      }
    }

    /** `remove(p)`: deletes the first entry covering `clamp(p, 0, 1)` of the
        length and recomputes the starts of the entries after it.  When no
        entry covers that point, `splice(-1, 1)` drops the last entry and the
        loop then reads a property of `undefined`. */
    method Remove(p: real) returns (r: Outcome<AnimError>)
      requires Valid()
      modifies this
      ensures Valid() && percent == old(percent) && offset == old(offset)
      ensures var id := FirstCovering(old(entries), Clamp(p, 0.0, 1.0) * old(Length()));
        (id >= 0 ==>
          r.Pass? && Shape(entries) == Shape(old(entries)[..id] + old(entries)[id + 1..]) &&
          entries[..id] == old(entries)[..id] && Length() == old(Length()) - old(entries)[id].dur) &&
        (id < 0 ==>
          r == Fail(TypeError) && entries == old(entries)[..if |old(entries)| == 0 then 0 else |old(entries)| - 1])
    {
      var q := Clamp(p, 0.0, 1.0) * Length();
      var id := FirstCovering(entries, q);
      if id < 0 {
        if |entries| > 0 {
          PrefixStartsInit(entries, |entries| - 1);
          entries := entries[..|entries| - 1];
        }
        return Fail(TypeError);
      }
      var removed := entries[..id] + entries[id + 1..];
      SumDurRemove(entries, id);
      RemoveKeepsPrefix(entries, id, removed);
      entries := removed;
      RestartFrom(id);
      SumDurOfShape(entries, removed);
      r := Pass;
    }

    /** The loop of `remove`: from `id` on, each start becomes 0 for the
        first entry and the previous entry's end otherwise. */
    method RestartFrom(id: int)
      requires 0 <= id <= |entries|
      requires forall j :: 0 <= j < id ==> entries[j].s == SumDur(entries[..j])
      modifies this
      ensures PrefixStarts(entries) && Shape(entries) == Shape(old(entries))
      ensures entries[..id] == old(entries)[..id]
      ensures percent == old(percent) && offset == old(offset)
    {
      var i := id;
      while i < |entries|
        invariant id <= i <= |entries|
        invariant Shape(entries) == Shape(old(entries))
        invariant entries[..id] == old(entries)[..id]
        invariant forall j :: 0 <= j < i ==> entries[j].s == SumDur(entries[..j])
        invariant percent == old(percent) && offset == old(offset)
      {
        ghost var before := entries;
        var start := if i == 0 then 0.0 else entries[i - 1].s + entries[i - 1].dur;
        entries := entries[i := entries[i].(s := start)];
        RestartStep(before, i, entries);
        assert entries[..id] == entries[..i][..id];
        i := i + 1;
      }
    }

    /** The point of the timeline `value` looks up: `percent * length`. */
    function Point(): real
      reads this
    {
      percent * Length()
    }

    /** The index of the entry `value` reads: the first one covering
        `percent * length`, or -1. */
    function Playing(): int
      reads this
    {
      FirstCovering(entries, Point())
    }

    /** The `value` getter: the first entry covering `percent * length` has
        its percent set to the position inside it, and the result is the
        offset plus that entry's value.  No covering entry reads a property
        of `undefined`.  A covering entry of duration 0 gets the percent
        0/0 = NaN; the model keeps its percent and reports NaN unless the
        entry is a Blank, whose value ignores the percent. */
    method Value() returns (r: Result<Num, AnimError>)
      modifies Anims()
      ensures Playing() < 0 ==> r == Err(TypeError) && unchanged(Anims())
      ensures Playing() >= 0 && entries[Playing()].dur != 0.0 ==>
        var e := entries[Playing()];
        e.anim.percent == Clamp(Position(e, Point()), 0.0, 1.0) &&
        r == Ok(Fin(offset + e.anim.Value())) &&
        unchanged(Anims() - {e.anim})
      ensures Playing() >= 0 && entries[Playing()].dur == 0.0 ==>
        var e := entries[Playing()];
        r == (if e.anim.curve.Constant? then Ok(Fin(offset + e.anim.curve.value)) else Ok(NaN)) &&
        unchanged(Anims())
    {
      var id := Playing();
      if id < 0 {
        return Err(TypeError);
      }
      var e := entries[id];
      assert e.anim in Anims();
      if e.dur == 0.0 {
        r := if e.anim.curve.Constant? then Ok(Fin(offset + e.anim.curve.value)) else Ok(NaN);
        assert Playing() == id && entries[id] == e;
      } else {
        e.anim.SetPercent(Position(e, Point()));
        r := Ok(Fin(offset + e.anim.Value()));
        assert Playing() == id && entries[id] == e;
      }
    }
  }

  /** `new AnimationSequence(arg1, ...arg2)`: a number is the offset;
      otherwise the offset is 0 and `arg1` is the first entry; a missing
      `arg1` is dereferenced and throws. */
  method NewAnimationSequence(first: FirstArgument, rest: seq<Item>) returns (r: Result<AnimationSequence, AnimError>)
    ensures first.Omitted? <==> r.Err?
    ensures r.Ok? ==> fresh(r.value) && r.value.Valid() && r.value.percent == 0.0
    ensures first.Offset? ==>
      r.Ok? && r.value.offset == first.offset &&
      Shape(r.value.entries) == seq(|rest|, i requires 0 <= i < |rest| => (rest[i].anim, DurOf(rest[i])))
    ensures first.Leading? ==>
      r.Ok? && r.value.offset == 0.0 &&
      Shape(r.value.entries) == seq(|rest| + 1, i requires 0 <= i < |rest| + 1 =>
        ((([first.item] + rest)[i]).anim, DurOf(([first.item] + rest)[i])))
  {
    match first {
      case Offset(offset) =>
        var s := new AnimationSequence(offset, rest);
        r := Ok(s);
      case Leading(item) =>
        var s := new AnimationSequence(0.0, [item] + rest);
        r := Ok(s);
      case Omitted =>
        r := Err(TypeError);
    }
  }

  class TimedAnimationSequence {
    /** The `AnimationSequence` part. */
    const sequence: AnimationSequence
    var t0: real
    var dur: real

    /** The constructor once the offset is known to be a number. */
    constructor (t0: real, dur: real, offset: real, animations: seq<Item>)
      ensures fresh(sequence) && sequence.Valid() && sequence.percent == 0.0 && sequence.offset == offset
      ensures Shape(sequence.entries) == seq(|animations|, i requires 0 <= i < |animations| =>
        (animations[i].anim, DurOf(animations[i])))
      ensures this.t0 == t0 && this.dur == dur
    {
      sequence := new AnimationSequence(offset, animations);
      this.t0 := t0;
      this.dur := dur;
    }

    /** `update(time)`: the clamped progress becomes the percent and the
        sequence's value is returned.  A NaN progress makes the lookup find
        nothing, so the source throws; the model keeps the percent. */
    method Update(time: real) returns (r: Result<Num, AnimError>)
      modifies sequence, sequence.Anims()
      ensures ClampedProgress(time, t0, dur).NaN? ==>
        r == Err(TypeError) && sequence.percent == old(sequence.percent) && unchanged(old(sequence.Anims()))
      ensures ClampedProgress(time, t0, dur).Fin? ==> sequence.percent == ClampedProgress(time, t0, dur).v
      ensures ClampedProgress(time, t0, dur).Fin? && sequence.Playing() < 0 ==>
        r == Err(TypeError) && unchanged(old(sequence.Anims()))
      ensures ClampedProgress(time, t0, dur).Fin? && sequence.Playing() >= 0 &&
              sequence.entries[sequence.Playing()].dur != 0.0 ==>
        var e := sequence.entries[sequence.Playing()];
        e.anim.percent == Clamp(Position(e, sequence.Point()), 0.0, 1.0) &&
        r == Ok(Fin(sequence.offset + e.anim.Value())) &&
        unchanged(old(sequence.Anims()) - {e.anim})
      ensures ClampedProgress(time, t0, dur).Fin? && sequence.Playing() >= 0 &&
              sequence.entries[sequence.Playing()].dur == 0.0 ==>
        var e := sequence.entries[sequence.Playing()];
        r == (if e.anim.curve.Constant? then Ok(Fin(sequence.offset + e.anim.curve.value)) else Ok(NaN)) &&
        unchanged(old(sequence.Anims()))
      ensures sequence.entries == old(sequence.entries) && sequence.offset == old(sequence.offset)
    {
      var progress := ClampedProgress(time, t0, dur);
      if progress.NaN? {
        return Err(TypeError);
      }
      ProgressBounds(time, t0, dur);
      sequence.SetPercent(progress.v);
      r := sequence.Value();
    }
  }

  /** `new TimedAnimationSequence({t0 = 0, dur = 1, offset, animations = []})`:
      the offset is passed on as the first argument, so an omitted offset is
      taken as an entry and construction throws. */
  method NewTimedAnimationSequence(t0: real := 0.0, dur: real := 1.0, offset: Option<real> := None,
                                   animations: seq<Item> := []) returns (r: Result<TimedAnimationSequence, AnimError>)
    ensures offset.None? <==> r.Err?
    ensures r.Ok? ==>
      fresh(r.value) && r.value.t0 == t0 && r.value.dur == dur &&
      r.value.sequence.offset == offset.value && r.value.sequence.Valid()
  {
    if offset.None? {
      return Err(TypeError);
    }
    var s := new TimedAnimationSequence(t0, dur, offset.value, animations);
    r := Ok(s);
  }
}
