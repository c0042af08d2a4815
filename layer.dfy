/**
 The Halftone3 layer object (halftone3.cpp:153-471) and the render task it
 hands its parameters to. The layer's fields are updated in place by the
 constructor, `sync` and `set_param`; each method is proved against the
 value-level specification in module Params.
 */
module Layer {
  import opened Colors
  import opened Separation
  import opened Halftone
  import opened Compositor
  import opened Params

  /** `Color::BlendMethod`: only the straight method matters to the layer itself. */
  datatype BlendMethod = Straight | OtherMethod(code: int)

  /** `Color::blend(color, under, amount, method)`, which is not part of this model. */
  type Blend = (Color, Color, real, BlendMethod) -> Color

  /** The opacity and blend method the layer keeps in its Layer_Composite base. */
  datatype Blending = Blending(amount: real, blend: BlendMethod)

  /**
   `Layer_Composite::set_param`, which is not part of this model, as far as
   this layer reads it back: given a name, a value and the current opacity
   and blend method, it declines (None) or takes the value and leaves the
   opacity and blend method it returns.
   */
  type BaseSetParam = (string, Value, Blending) -> Option<Blending>

  /**
   A snapshot of the layer's parameters for rendering (TaskHalfTone3,
   halftone3.cpp:64-83). `subTask` is the task rendering the layers beneath.
   */
  class TaskHalfTone3 {
    const tone: array<Tone>
    const color: array<Color>
    var subtractive: bool
    const inverseMatrix: array2<real>
    var subTask: object?

    predicate Shape()
      reads this
    {
      tone.Length == 3 && color.Length == 3 && inverseMatrix.Length0 == 3 && inverseMatrix.Length1 == 3
    }

    constructor()
      ensures Shape() && !subtractive && subTask == null
      ensures fresh(tone) && fresh(color) && fresh(inverseMatrix)
    {
      tone := new Tone[3];
      color := new Color[3];
      subtractive := false;
      inverseMatrix := new real[3, 3];
      subTask := null;
    }

    /** What the per-pixel formula reads of the task. */
    function Snapshot(): (sc: Screen)
      requires Shape()
      reads this, tone, color, inverseMatrix
      ensures Compositor.WellFormed(sc)
    {
      Screen(color[..], subtractive, tone[..],
        [Vec3(inverseMatrix[0, 0], inverseMatrix[0, 1], inverseMatrix[0, 2]),
         Vec3(inverseMatrix[1, 0], inverseMatrix[1, 1], inverseMatrix[1, 2]),
         Vec3(inverseMatrix[2, 0], inverseMatrix[2, 1], inverseMatrix[2, 2])])
    }

    /**
     TaskHalfTone3SW::get_color (halftone3.cpp:98-134) at a point already
     taken into mask space; `supersample` is what `pre_run` computed.
     */
    function GetColor(mask: Mask, point: Vec2, supersample: real, inColor: Color): (r: Color)
      requires Shape()
      reads this, tone, color, inverseMatrix
      ensures r.a == inColor.a
    {
      Composite(Snapshot(), mask, point, supersample, inColor)
    }
  }

  /** The constructor's screens: shared size and type, origin 0, angle 30 degrees times the index. */
  method NewTones(size: Vec2, maskType: int) returns (t: array<Tone>)
    ensures fresh(t) && t[..] == InitialTones(size, maskType)
  {
    t := new Tone[3];
    for i := 0 to 3
      invariant forall k :: 0 <= k < i ==> t[k] == Tone(size, maskType, Vec2(0.0, 0.0), 30.0 * k as real)
    {
      t[i] := Tone(size, maskType, Vec2(0.0, 0.0), 30.0 * i as real);
    }
  }

  /** The constructor's 3x3 identity matrix. */
  method NewIdentity() returns (m: array2<real>)
    ensures fresh(m) && m.Length0 == 3 && m.Length1 == 3
    ensures forall a, b :: 0 <= a < 3 && 0 <= b < 3 ==> m[a, b] == if a == b then 1.0 else 0.0
  {
    m := new real[3, 3];
    for i := 0 to 3
      invariant forall a, b :: 0 <= a < i && 0 <= b < 3 ==> m[a, b] == if a == b then 1.0 else 0.0
    {
      for j := 0 to 3
        invariant forall a, b :: 0 <= a < i && 0 <= b < 3 ==> m[a, b] == if a == b then 1.0 else 0.0
        invariant forall b :: 0 <= b < j ==> m[i, b] == if i == b then 1.0 else 0.0
      {
        m[i, j] := if j == i then 1.0 else 0.0;
      }
    }
  }

  class Halftone3 {
    /** The opacity and blend method the layer inherits from Layer_CompositeFork. */
    var amount: real
    var blendMethod: BlendMethod

    var size: Vec2
    var maskType: int
    var subtractive: bool
    const color: array<Color>
    const tone: array<Tone>
    const inverseMatrix: array2<real>

    predicate Shape()
      reads this
    {
      color.Length == 3 && tone.Length == 3 && inverseMatrix.Length0 == 3 && inverseMatrix.Length1 == 3
    }

    function MatrixRow(i: nat): Vec3
      requires Shape() && i < 3
      reads this, inverseMatrix
    {
      Vec3(inverseMatrix[i, 0], inverseMatrix[i, 1], inverseMatrix[i, 2])
    }

    /** The layer's parameters as a value. */
    function State(): (s: LayerState)
      requires Shape()
      reads this, color, tone, inverseMatrix
      ensures Params.WellFormed(s)
    {
      LayerState(size, maskType, color[..], subtractive, tone[..], [MatrixRow(0), MatrixRow(1), MatrixRow(2)])
    }

    /** The layer's invariant: every screen carries the shared size and type, and the matrix is current. */
    predicate Valid()
      reads this, color, tone, inverseMatrix
    {
      Shape() && Synced(State())
    }

    /**
     Halftone3::Halftone3 (halftone3.cpp:153-191): full opacity, straight
     blending, the default parameters and the identity matrix, then `sync`.
     */
    constructor()
      ensures Valid() && State() == Default()
      ensures amount == 1.0 && blendMethod == Straight
      ensures fresh(color) && fresh(tone) && fresh(inverseMatrix)
    {
      amount := 1.0;
      blendMethod := Straight;
      var sz := Vec2(0.25, 0.25);
      var ty := TypeSymmetric;
      var t := NewTones(sz, ty);
      var sub := true;
      var primaries := DefaultColors(sub);
      var c := new Color[3];
      c[0], c[1], c[2] := primaries[0], primaries[1], primaries[2];
      var m := NewIdentity();
      size, maskType, subtractive := sz, ty, sub;
      color, tone, inverseMatrix := c, t, m;
      new;
      assert MatrixRow(0) == Identity[0] && MatrixRow(1) == Identity[1] && MatrixRow(2) == Identity[2];
      assert State() == Initial();
      Sync();
      DefaultTones();
    }

    /**
     Halftone3::sync (halftone3.cpp:193-250). Each row is the primary's RGB
     triple (complemented when subtractive) divided twice by its length
     `mult` unless `mult` is zero; here the two divisions are one division by
     `mult * mult`, the squared length, which Separation.RowIsDividedTwice
     proves to be the same row.
     */
    method Sync()
      requires Shape()
      modifies tone, inverseMatrix
      ensures State() == Params.Sync(old(State()))
    {
      CopySizeToTones();
      CopyTypeToTones();
      ghost var fanned := tone[..];
      for i := 0 to 3
        invariant tone[..] == fanned
        invariant forall k :: 0 <= k < i ==> MatrixRow(k) == Row(SourceVector(color[k], subtractive))
      {
        RebuildRow(i);
      }
    }

    /** The fan-out of the shared size: `tone[i].param_size = param_size` for every screen. */
    method CopySizeToTones()
      requires Shape()
      modifies tone
      ensures tone[..] == WithToneSizes(old(tone[..]), size)
    {
      for i := 0 to 3
        invariant forall k :: 0 <= k < i ==> tone[k] == old(tone[k]).(size := size)
        invariant forall k :: i <= k < 3 ==> tone[k] == old(tone[k])
      {
        tone[i] := tone[i].(size := size);
      }
    }

    /** The fan-out of the shared type: `tone[i].param_type = param_type` for every screen. */
    method CopyTypeToTones()
      requires Shape()
      modifies tone
      ensures tone[..] == WithToneTypes(old(tone[..]), maskType)
    {
      for i := 0 to 3
        invariant forall k :: 0 <= k < i ==> tone[k] == old(tone[k]).(maskType := maskType)
        invariant forall k :: i <= k < 3 ==> tone[k] == old(tone[k])
      {
        tone[i] := tone[i].(maskType := maskType);
      }
    }

    /** One pass of the loop over the rows in `sync`: row i from primary i; the other rows keep their values. */
    method RebuildRow(i: nat)
      requires Shape() && i < 3
      modifies inverseMatrix
      ensures MatrixRow(i) == Row(SourceVector(color[i], subtractive))
      ensures forall k :: 0 <= k < 3 && k != i ==> MatrixRow(k) == old(MatrixRow(k))
    {
      if subtractive {
        inverseMatrix[i, 0] := 1.0 - color[i].r;
        inverseMatrix[i, 1] := 1.0 - color[i].g;
        inverseMatrix[i, 2] := 1.0 - color[i].b;
      } else {
        inverseMatrix[i, 0] := color[i].r;
        inverseMatrix[i, 1] := color[i].g;
        inverseMatrix[i, 2] := color[i].b;
      }
      ghost var src := MatrixRow(i);
      assert src == SourceVector(color[i], subtractive);
      var n := inverseMatrix[i, 0] * inverseMatrix[i, 0] + inverseMatrix[i, 1] * inverseMatrix[i, 1]
        + inverseMatrix[i, 2] * inverseMatrix[i, 2];
      assert n == SqNorm(src);
      if n != 0.0 {
        inverseMatrix[i, 0] := inverseMatrix[i, 0] / n;
        inverseMatrix[i, 1] := inverseMatrix[i, 1] / n;
        inverseMatrix[i, 2] := inverseMatrix[i, 2] / n;
      }
    }

    /**
     Halftone3::set_param (halftone3.cpp:335-371). Returns whether the value
     was taken. A name the layer does not take itself, or a value of the
     wrong type, goes to the base class `baseSet` (line 370), which may change
     the opacity and blend method and decides the result.
     */
    method SetParam(key: string, value: Value, baseSet: BaseSetParam) returns (handled: bool)
      requires Valid()
      modifies this, color, tone, inverseMatrix
      ensures Valid()
      ensures var r := Params.SetParam(old(State()), key, value);
        r.Some? ==> handled && State() == r.value && amount == old(amount) && blendMethod == old(blendMethod)
      ensures var r, b := Params.SetParam(old(State()), key, value), baseSet(key, value, Blending(old(amount), old(blendMethod)));
        r.None? ==> && State() == old(State()) && handled == b.Some?
                    && Blending(amount, blendMethod) == if b.Some? then b.value else Blending(old(amount), old(blendMethod))
    {
      ghost var s0 := State();
      if Params.SetParam(s0, key, value).Some? {
        SetKeepsSynced(s0, key, value);
      }
      handled := SetSharedParam(key, value);
      if !handled {
        handled := SetSeparationParam(key, value);
      }
      if !handled {
        handled := SetToneParam(key, value);
      }
      if !handled {
        var b := baseSet(key, value, Blending(amount, blendMethod));
        if b.Some? {
          amount, blendMethod := b.value.amount, b.value.blend;
          handled := true;
        }
      }
    }

    /**
     The part of set_param for the shared mask parameters
     (halftone3.cpp:338-348): `size` and `type` are stored and copied to every
     screen.
     */
    method SetSharedParam(key: string, value: Value) returns (handled: bool)
      requires Shape()
      modifies this, tone
      ensures var n := Classify(key);
        handled == ((n.Size? || n.Type?) && TypeOf(value) == ParamType(n))
      ensures handled ==> State() == Params.SetParam(old(State()), key, value).value
      ensures !handled ==> State() == old(State())
      ensures amount == old(amount) && blendMethod == old(blendMethod)
    {
      if key == "size" && value.Vector? {
        size := value.v;
        CopySizeToTones();
        ClassifyKeyOf(Size);
        return true;
      }
      if key == "type" && value.Integer? {
        maskType := value.n;
        CopyTypeToTones();
        ClassifyKeyOf(Type);
        return true;
      }
      return false;
    }

    /**
     The part of set_param for the separation (halftone3.cpp:350-354):
     `color[i]` and `subtractive` are stored and the layer re-synced.
     */
    method SetSeparationParam(key: string, value: Value) returns (handled: bool)
      requires Shape()
      modifies this, color, tone, inverseMatrix
      ensures var n := Classify(key);
        handled == ((n.ColorOf? || n.Subtractive?) && TypeOf(value) == ParamType(n))
      ensures handled ==> State() == Params.SetParam(old(State()), key, value).value
      ensures !handled ==> State() == old(State())
      ensures amount == old(amount) && blendMethod == old(blendMethod)
    {
      for i := 0 to 3
        invariant forall k :: 0 <= k < i ==> !(key == KeyOf(ColorOf(k)) && value.ColorValue?)
      {
        if key == IndexedKey("color[", i, "]") && value.ColorValue? {
          ClassifyKeyOf(ColorOf(i));
          color[i] := value.c;
          Sync();
          return true;
        }
      }
      if key == "subtractive" && value.Bool? {
        ClassifyKeyOf(Subtractive);
        subtractive := value.b;
        Sync();
        return true;
      }
      return false;
    }

    /**
     The per-screen part of set_param (halftone3.cpp:355-368): `tone[i].angle`
     takes an angle, `tone[i].origin` and its alias `tone[i].offset` take a
     vector, for i from 0 to 2; only that screen changes.
     */
    method SetToneParam(key: string, value: Value) returns (handled: bool)
      requires Shape()
      modifies tone
      ensures var n := Classify(key);
        handled == ((n.ToneAngle? || n.ToneOrigin? || n.ToneOffset?) && TypeOf(value) == ParamType(n))
      ensures handled ==> State() == Params.SetParam(old(State()), key, value).value
      ensures !handled ==> tone[..] == old(tone[..])
    {
      for i := 0 to 3
        invariant forall k :: 0 <= k < i ==> !(key == KeyOf(ToneAngle(k)) && value.Angle?)
      {
        if key == IndexedKey("tone[", i, "].angle") && value.Angle? {
          ClassifyKeyOf(ToneAngle(i));
          tone[i] := tone[i].(angle := value.degrees);
          return true;
        }
      }
      for i := 0 to 3
        invariant forall k :: 0 <= k < i ==>
          !((key == KeyOf(ToneOrigin(k)) || key == KeyOf(ToneOffset(k))) && value.Vector?)
      {
        if (key == IndexedKey("tone[", i, "].origin") || key == IndexedKey("tone[", i, "].offset")) && value.Vector? {
          if key == IndexedKey("tone[", i, "].origin") {
            ClassifyKeyOf(ToneOrigin(i));
          } else {
            ClassifyKeyOf(ToneOffset(i));
          }
          tone[i] := tone[i].(origin := value.v);
          return true;
        }
      }
      return false;
    }

    /**
     Halftone3::get_param (halftone3.cpp:373-395). None stands for a name
     left to the base class.
     */
    method GetParam(key: string) returns (r: Option<Value>)
      requires Shape()
      ensures r == Params.GetParam(State(), key)
    {
      if key == "size" {
        return Some(Vector(size));
      }
      if key == "type" {
        return Some(Integer(maskType));
      }
      for i := 0 to 3
        invariant forall k :: 0 <= k < i ==> key != KeyOf(ColorOf(k))
      {
        if key == IndexedKey("color[", i, "]") {
          ClassifyKeyOf(ColorOf(i));
          return Some(ColorValue(color[i]));
        }
      }
      if key == "subtractive" {
        return Some(Bool(subtractive));
      }
      for i := 0 to 3
        invariant forall k :: 0 <= k < i ==> key != KeyOf(ToneAngle(k))
      {
        if key == IndexedKey("tone[", i, "].angle") {
          ClassifyKeyOf(ToneAngle(i));
          return Some(Angle(tone[i].angle));
        }
      }
      for i := 0 to 3
        invariant forall k :: 0 <= k < i ==> key != KeyOf(ToneOrigin(k))
      {
        if key == IndexedKey("tone[", i, "].origin") {
          ClassifyKeyOf(ToneOrigin(i));
          return Some(Vector(tone[i].origin));
        }
      }
      return None;
    }

    /**
     Halftone3::color_func (halftone3.cpp:286-327): the per-pixel formula
     over the layer's current parameters.
     */
    function ColorFunc(mask: Mask, point: Vec2, supersample: real, inColor: Color): (r: Color)
      requires Shape()
      reads this, color, tone, inverseMatrix
      ensures r.a == inColor.a
    {
      Composite(ScreenOf(State()), mask, point, supersample, inColor)
    }

    /**
     Halftone3::get_color (halftone3.cpp:441-451) over the colour `under` of
     the layers beneath: at full opacity with straight blending the layer's
     own colour (supersample 0) is returned as it is; otherwise it is blended.
     */
    function GetColor(mask: Mask, blend: Blend, under: Color, point: Vec2): (r: Color)
      requires Shape()
      reads this, color, tone, inverseMatrix
      ensures amount == 1.0 && blendMethod == Straight ==> r == ColorFunc(mask, point, 0.0, under) && r.a == under.a
      ensures !(amount == 1.0 && blendMethod == Straight) ==>
        r == blend(ColorFunc(mask, point, 0.0, under), under, amount, blendMethod)
    {
      var c := ColorFunc(mask, point, 0.0, under);
      if amount == 1.0 && blendMethod == Straight then c else blend(c, under, amount, blendMethod)
    }

    /**
     Halftone3::build_composite_fork_task_vfunc (halftone3.cpp:453-471): no
     task beneath means no task; otherwise a new task holding a copy of the
     colours, the mode, the screens and the matrix, over `subTask`.
     */
    method BuildTask(subTask: object?) returns (task: TaskHalfTone3?)
      requires Valid()
      ensures subTask == null ==> task == null
      ensures subTask != null ==>
        && task != null && fresh(task) && fresh(task.tone) && fresh(task.color) && fresh(task.inverseMatrix)
        && task.Shape() && task.subTask == subTask
        && task.Snapshot() == ScreenOf(State())
    {
      if subTask == null {
        return null;
      }
      task := new TaskHalfTone3();
      for i := 0 to 3
        invariant forall k :: 0 <= k < i ==> task.color[k] == color[k]
      {
        task.color[i] := color[i];
      }
      task.subtractive := subtractive;
      for i := 0 to 3
        invariant forall k :: 0 <= k < 3 ==> task.color[k] == color[k]
        invariant forall k :: 0 <= k < i ==> task.tone[k] == tone[k]
        invariant task.subtractive == subtractive
      {
        task.tone[i] := tone[i];
      }
      for i := 0 to 3
        invariant forall k :: 0 <= k < 3 ==> task.color[k] == color[k] && task.tone[k] == tone[k]
        invariant forall a, b :: 0 <= a < i && 0 <= b < 3 ==> task.inverseMatrix[a, b] == inverseMatrix[a, b]
        invariant task.subtractive == subtractive
      {
        for j := 0 to 3
          invariant forall k :: 0 <= k < 3 ==> task.color[k] == color[k] && task.tone[k] == tone[k]
          invariant forall a, b :: 0 <= a < i && 0 <= b < 3 ==> task.inverseMatrix[a, b] == inverseMatrix[a, b]
          invariant forall b :: 0 <= b < j ==> task.inverseMatrix[i, b] == inverseMatrix[i, b]
          invariant task.subtractive == subtractive
        {
          task.inverseMatrix[i, j] := inverseMatrix[i, j];
        }
      }
      task.subTask := subTask;
      assert task.color[..] == color[..];
      assert task.tone[..] == tone[..];
      assert task.Snapshot().matrix == [MatrixRow(0), MatrixRow(1), MatrixRow(2)];
      assert task.Snapshot() == Screen(color[..], subtractive, tone[..], [MatrixRow(0), MatrixRow(1), MatrixRow(2)]);
    }
  }

  /**
   A task built from a layer paints, pixel for pixel, what the layer's own
   color_func paints: TaskHalfTone3SW::get_color repeats the same formula.
   */
  lemma TaskAgreesWithLayer(layer: Halftone3, task: TaskHalfTone3, mask: Mask, point: Vec2, supersample: real, inColor: Color)
    requires layer.Shape() && task.Shape()
    requires task.Snapshot() == ScreenOf(layer.State())
    ensures task.GetColor(mask, point, supersample, inColor) == layer.ColorFunc(mask, point, supersample, inColor)
  {
  }
}
