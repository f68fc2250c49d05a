/** The copy constraints of src/physics: CopyLocationConstraint,
    CopyRotationConstraint, CopyScaleConstraint and CopyTransformsConstraint.

    Each reads the owner's and the target's local or global transform and
    writes only the owner's global transform.  The value each one installs is
    a function of the transforms as they were when `solve` began; the
    methods prove that reading the transforms while writing gives the same
    result, because no field is read after it has been written. */
module CopyConstraints {
  import opened Numerics
  import opened Vectors
  import opened Matrices
  import opened Transforms
  import opened Physics

  /** `invert ? -1 : 1`. */
  function Sign(invert: bool): (r: real)
    ensures r == 1.0 || r == -1.0
    ensures invert <==> r < 0.0
  {
    if invert then -1.0 else 1.0
  }

  /** One axis of CopyLocationConstraint: a disabled axis keeps the owner's
      coordinate; an enabled one takes the target's, negated when inverted,
      plus the owner's reference coordinate when `offset` is set. */
  function CopiedCoordinate(enabled: bool, invert: bool, offset: bool, o: real, t: real, current: real): (r: real)
    ensures !enabled ==> r == current
    ensures enabled && !offset ==> r == (if invert then -t else t)
    ensures enabled && offset ==> r - o == (if invert then -t else t)
  {
    if enabled then t * Sign(invert) + (if offset then o else 0.0) else current
  }

  /** The rotation CopyRotationConstraint installs: the target's rotation,
      negated when inverted, plus the owner's when `offset` is set. */
  function CopiedAngle(invert: bool, offset: bool, o: real, t: real): (r: real)
    ensures !offset ==> r == (if invert then -t else t)
    ensures offset ==> r - o == (if invert then -t else t)
  {
    t * Sign(invert) + (if offset then o else 0.0)
  }

  /** One axis of CopyScaleConstraint: the offset multiplies rather than
      adds. */
  function CopiedScale(enabled: bool, offset: bool, o: real, t: real, current: real): (r: real)
    ensures !enabled ==> r == current
    ensures enabled && !offset ==> r == t
    ensures enabled && offset ==> r == t * o
  {
    if enabled then t * (if offset then o else 1.0) else current
  }

  class CopyLocationConstraint {
    const owner: PhysicsModel
    const target: PhysicsModel
    var axes: (bool, bool)
    var invert: (bool, bool)
    var offset: bool
    var ownerRelativity: Relativity
    var targetRelativity: Relativity

    /** The options default to both axes, no inversion, no offset and global
        relativity on both sides. */
    constructor(owner: PhysicsModel, target: PhysicsModel, axes: (bool, bool) := (true, true),
                invert: (bool, bool) := (false, false), offset: bool := false,
                ownerRelativity: Relativity := Global, targetRelativity: Relativity := Global)
      ensures this.owner == owner && this.target == target
      ensures this.axes == axes && this.invert == invert && this.offset == offset
      ensures this.ownerRelativity == ownerRelativity && this.targetRelativity == targetRelativity
    {
      this.owner := owner;
      this.target := target;
      this.axes := axes;
      this.invert := invert;
      this.offset := offset;
      this.ownerRelativity := ownerRelativity;
      this.targetRelativity := targetRelativity;
    }

    /** `solve()`: each enabled axis of the owner's global translation is set
        from the target; only the owner's global transform changes. */
    method Solve()
      requires owner.Valid() && target.Valid()
      modifies owner.global, owner.global.matrix.data
      ensures owner.global.Fields() == old(owner.global.Fields()).(translate := Vec2(
        CopiedCoordinate(axes.0, invert.0, offset, old(Reference(owner, ownerRelativity).translate.x),
                         old(Reference(target, targetRelativity).translate.x), old(owner.global.translate.x)),
        CopiedCoordinate(axes.1, invert.1, offset, old(Reference(owner, ownerRelativity).translate.y),
                         old(Reference(target, targetRelativity).translate.y), old(owner.global.translate.y))))
      ensures axes.0 || axes.1 ==> owner.global.Composed()
      ensures !axes.0 && !axes.1 ==> owner.global.Cells() == old(owner.global.Cells())
    {
      var og := owner.global;
      var o := Reference(owner, ownerRelativity).T();
      var t := Reference(target, targetRelativity).T();
      if axes.0 {
        og.TranslateX(CopiedCoordinate(true, invert.0, offset, o.x, t.x, og.translate.x));
      }
      if axes.1 {
        og.TranslateY(CopiedCoordinate(true, invert.1, offset, o.y, t.y, og.translate.y));
      }
    }
  }

  class CopyRotationConstraint {
    const owner: PhysicsModel
    const target: PhysicsModel
    var invert: bool
    var offset: bool
    var ownerRelativity: Relativity
    var targetRelativity: Relativity

    /** The options default to no inversion, no offset and global relativity
        on both sides. */
    constructor(owner: PhysicsModel, target: PhysicsModel, invert: bool := false, offset: bool := false,
                ownerRelativity: Relativity := Global, targetRelativity: Relativity := Global)
      ensures this.owner == owner && this.target == target
      ensures this.invert == invert && this.offset == offset
      ensures this.ownerRelativity == ownerRelativity && this.targetRelativity == targetRelativity
    {
      this.owner := owner;
      this.target := target;
      this.invert := invert;
      this.offset := offset;
      this.ownerRelativity := ownerRelativity;
      this.targetRelativity := targetRelativity;
    }

    /** `solve()`: the owner's global angle (`rd`) becomes exactly the copied
        rotation, read as `r` (the direction's rotation) on both sides. */
    method Solve(M: MathFns)
      requires owner.Valid() && target.Valid()
      modifies owner.global, owner.global.matrix.data
      ensures var angle := CopiedAngle(invert, offset, old(Reference(owner, ownerRelativity).R(M)),
                                       old(Reference(target, targetRelativity).R(M)));
        owner.global.Rd() == angle &&
        owner.global.Fields() == old(owner.global.Fields()).(angle := angle, direct := FromDegree(M, angle))
      ensures owner.global.Composed()
    {
      var o := Reference(owner, ownerRelativity).R(M);
      var t := Reference(target, targetRelativity).R(M);
      owner.global.RotateTo(M, CopiedAngle(invert, offset, o, t));
    }
  }

  class CopyScaleConstraint {
    const owner: PhysicsModel
    const target: PhysicsModel
    var axes: (bool, bool)
    var offset: bool
    var ownerRelativity: Relativity
    var targetRelativity: Relativity

    /** The options default to both axes, no offset and global relativity on
        both sides. */
    constructor(owner: PhysicsModel, target: PhysicsModel, axes: (bool, bool) := (true, true),
                offset: bool := false, ownerRelativity: Relativity := Global,
                targetRelativity: Relativity := Global)
      ensures this.owner == owner && this.target == target
      ensures this.axes == axes && this.offset == offset
      ensures this.ownerRelativity == ownerRelativity && this.targetRelativity == targetRelativity
    {
      this.owner := owner;
      this.target := target;
      this.axes := axes;
      this.offset := offset;
      this.ownerRelativity := ownerRelativity;
      this.targetRelativity := targetRelativity;
    }

    /** `solve()`: each enabled axis of the owner's global scale is set from
        the target's, multiplied by the owner's when `offset` is set. */
    method Solve()
      requires owner.Valid() && target.Valid()
      modifies owner.global, owner.global.matrix.data
      ensures owner.global.Fields() == old(owner.global.Fields()).(scale := Vec2(
        CopiedScale(axes.0, offset, old(Reference(owner, ownerRelativity).scale.x),
                    old(Reference(target, targetRelativity).scale.x), old(owner.global.scale.x)),
        CopiedScale(axes.1, offset, old(Reference(owner, ownerRelativity).scale.y),
                    old(Reference(target, targetRelativity).scale.y), old(owner.global.scale.y))))
      ensures axes.0 || axes.1 ==> owner.global.Composed()
      ensures !axes.0 && !axes.1 ==> owner.global.Cells() == old(owner.global.Cells())
    {
      var og := owner.global;
      var o := Reference(owner, ownerRelativity).S();
      var t := Reference(target, targetRelativity).S();
      if axes.0 {
        og.ScaleX(CopiedScale(true, offset, o.x, t.x, og.scale.x));
      }
      if axes.1 {
        og.ScaleY(CopiedScale(true, offset, o.y, t.y, og.scale.y));
      }
    }
  }

  /** The `mixMode` option; any other string is kept as `Unknown`. */
  datatype MixMode = Replace | Split | BeforeFull | AfterFull | Unknown(name: string)

  /** `Error('Invalid mix mode', { cause: mode })`. */
  datatype MixError = InvalidMixMode(cause: string)

  /** The fields the `split` mode leaves in the owner's global transform:
      scales multiply per axis, skew angles add (the field keeps the
      tangent), rotations add and translations add. */
  function SplitFields(M: MathFns, o: Decomposition, t: Decomposition): Decomposition
  {
    var angle := t.direct.Rotation(M) + o.direct.Rotation(M);
    Decomposition(t.translate.Plus(o.translate), angle, FromDegree(M, angle),
                  M.tan(M.atan(t.skew) + M.atan(o.skew)), t.scale.Times(o.scale))
  }

  /** Splitting against a neutral owner (unit scale, no translation, no
      rotation, no skew) keeps the target's translation and scale, and its
      rotation and skew angle whenever `tan`/`atan` and `atan2` of a zero
      angle behave. */
  lemma SplitNeutralOwner(M: MathFns, o: Decomposition, t: Decomposition)
    requires o.translate == Vec2(0.0, 0.0) && o.scale == Vec2(1.0, 1.0)
    requires o.direct.Rotation(M) == 0.0 && M.atan(o.skew) == 0.0
    ensures SplitFields(M, o, t).translate == t.translate
    ensures SplitFields(M, o, t).scale == t.scale
    ensures SplitFields(M, o, t).angle == t.direct.Rotation(M)
    ensures SplitFields(M, o, t).skew == M.tan(M.atan(t.skew))
  {
  }

  /** Split mixing is symmetric in translation and scale: swapping owner and
      target changes neither. */
  lemma SplitSymmetric(M: MathFns, o: Decomposition, t: Decomposition)
    ensures SplitFields(M, o, t).translate == SplitFields(M, t, o).translate
    ensures SplitFields(M, o, t).scale == SplitFields(M, t, o).scale
    ensures SplitFields(M, o, t).angle == SplitFields(M, t, o).angle
    ensures SplitFields(M, o, t).skew == SplitFields(M, t, o).skew
  {
  }

  class CopyTransformsConstraint {
    const owner: PhysicsModel
    const target: PhysicsModel
    var mixMode: MixMode
    var ownerRelativity: Relativity
    var targetRelativity: Relativity

    /** The options default to `replace` and global relativity on both
        sides. */
    constructor(owner: PhysicsModel, target: PhysicsModel, mixMode: MixMode := Replace,
                ownerRelativity: Relativity := Global, targetRelativity: Relativity := Global)
      ensures this.owner == owner && this.target == target && this.mixMode == mixMode
      ensures this.ownerRelativity == ownerRelativity && this.targetRelativity == targetRelativity
    {
      this.owner := owner;
      this.target := target;
      this.mixMode := mixMode;
      this.ownerRelativity := ownerRelativity;
      this.targetRelativity := targetRelativity;
    }

    /** `solve()`: `replace` installs the target's cells, `beforeFull` the
        product target * owner and `afterFull` owner * target, each followed
        by decomposition; `split` combines the fields and recomposes once at
        the end; any other mode fails with 'Invalid mix mode' and writes
        nothing. */
    method Solve(M: MathFns) returns (r: Outcome<MixError>)
      requires owner.Valid() && target.Valid()
      modifies owner.global, owner.global.matrix.data
      ensures var o := old(Reference(owner, ownerRelativity).Cells());
              var t := old(Reference(target, targetRelativity).Cells());
        match mixMode
        case Replace =>
          r.Pass? && owner.global.Cells() == t && owner.global.Fields() == Decompose(M, t)
        case BeforeFull =>
          r.Pass? && owner.global.Cells() == Product(t, o) && owner.global.Fields() == Decompose(M, Product(t, o))
        case AfterFull =>
          r.Pass? && owner.global.Cells() == Product(o, t) && owner.global.Fields() == Decompose(M, Product(o, t))
        case Split =>
          r.Pass? && owner.global.Composed() &&
          owner.global.Fields() == SplitFields(M, old(Reference(owner, ownerRelativity).Fields()),
                                               old(Reference(target, targetRelativity).Fields()))
        case Unknown(name) =>
          r == Fail(InvalidMixMode(name)) &&
          owner.global.Cells() == old(owner.global.Cells()) && owner.global.Fields() == old(owner.global.Fields())
    {
      var o := Reference(owner, ownerRelativity);
      var t := Reference(target, targetRelativity);
      match mixMode {
        case Replace =>
          Install(M, t.matrix);
          r := Pass;
        case Split =>
          SolveSplit(M, o, t);
          r := Pass;
        case BeforeFull =>
          var p := t.matrix.Mult(o.matrix);
          Install(M, p);
          r := Pass;
        case AfterFull =>
          var p := o.matrix.Mult(t.matrix);
          Install(M, p);
          r := Pass;
        case Unknown(name) =>
          r := Fail(InvalidMixMode(name));
      }
    }

    /** `owner.global.setArray(m)` with nine cells, which always fits. */
    method Install(M: MathFns, m: Matrix3)
      requires owner.Valid() && m.Valid()
      modifies owner.global, owner.global.matrix.data
      ensures owner.global.Cells() == old(m.Cells())
      ensures owner.global.Fields() == Decompose(M, owner.global.Cells())
    {
      var cells := m.data[..];
      var written := owner.global.SetArray(M, cells);
      assert cells[9..] == [];
    }

    /** The `split` branch: scale, skew and rotation are written without
        recomposing, then `translate` recomposes once. */
    method SolveSplit(M: MathFns, o: Transform, t: Transform)
      requires owner.Valid()
      modifies owner.global, owner.global.matrix.data
      ensures owner.global.Composed()
      ensures owner.global.Fields() == SplitFields(M, old(o.Fields()), old(t.Fields()))
    {
      var og := owner.global;
      ghost var expected := SplitFields(M, o.Fields(), t.Fields());
      og.Scale(t.S().x * o.S().x, t.S().y * o.S().y, false);
      assert og.scale == expected.scale;
      assert o.skew == old(o.skew) && t.skew == old(t.skew);
      og.Skew(M, t.K(M) + o.K(M), false);
      assert og.skew == expected.skew && og.scale == expected.scale;
      assert o.direct == old(o.direct) && t.direct == old(t.direct);
      og.RotateTo(M, t.R(M) + o.R(M), false);
      assert og.angle == expected.angle && og.direct == expected.direct;
      assert og.skew == expected.skew && og.scale == expected.scale;
      assert o.translate == old(o.translate) && t.translate == old(t.translate);
      og.Translate(t.T().x + o.T().x, t.T().y + o.T().y);
    }
  }
}
