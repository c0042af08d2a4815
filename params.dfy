/**
 The configuration of a Halftone3 layer as a value, and the name-keyed
 parameter protocol over it (Halftone3::set_param and Halftone3::get_param,
 halftone3.cpp:335-395). These functions are the specification the
 in-place class in module Layer is proved against.
 */
module Params {
  import opened Colors
  import opened Separation
  import opened Halftone
  import opened Compositor

  datatype Option<T> = None | Some(value: T)

  /** The types a parameter value can have (`ValueBase::get_type`). */
  datatype ValueType = VectorType | IntegerType | BoolType | ColorType | AngleType | RealType | StringType

  /** A dynamically typed parameter value (`ValueBase`); angles are in degrees. */
  datatype Value =
    | Vector(v: Vec2)
    | Integer(n: int)
    | Bool(b: bool)
    | ColorValue(c: Color)
    | Angle(degrees: real)
    | Real(x: real)
    | Text(s: string)

  function TypeOf(v: Value): ValueType
  {
    match v
    case Vector(_) => VectorType
    case Integer(_) => IntegerType
    case Bool(_) => BoolType
    case ColorValue(_) => ColorType
    case Angle(_) => AngleType
    case Real(_) => RealType
    case Text(_) => StringType
  }

  /**
   The parameters the layer answers for itself. `Other` is every name it
   passes on to its base class (Layer_Composite), which is not part of this
   model.
   */
  datatype ParamName =
    | Size
    | Type
    | ColorOf(i: nat)
    | Subtractive
    | ToneAngle(i: nat)
    | ToneOrigin(i: nat)
    | ToneOffset(i: nat)
    | Other

  /** A name with a channel index in range. */
  predicate Known(n: ParamName)
  {
    match n
    case ColorOf(i) => i < 3
    case ToneAngle(i) => i < 3
    case ToneOrigin(i) => i < 3
    case ToneOffset(i) => i < 3
    case Other => false
    case _ => true
  }

  /** The type of the value the layer stores under a name; a set must match it. */
  function ParamType(n: ParamName): ValueType
    requires n != Other
  {
    match n
    case Size => VectorType
    case Type => IntegerType
    case ColorOf(_) => ColorType
    case Subtractive => BoolType
    case ToneAngle(_) => AngleType
    case ToneOrigin(_) => VectorType
    case ToneOffset(_) => VectorType
  }

  function Digit(i: nat): char
    requires i < 3
  {
    "012"[i]
  }

  /** `strprintf(prefix + "%d" + suffix, i)`. */
  function IndexedKey(prefix: string, i: nat, suffix: string): string
    requires i < 3
  {
    prefix + [Digit(i)] + suffix
  }

  /** The parameter name string of a known name. */
  function KeyOf(n: ParamName): string
    requires Known(n)
  {
    match n
    case Size => "size"
    case Type => "type"
    case ColorOf(i) => IndexedKey("color[", i, "]")
    case Subtractive => "subtractive"
    case ToneAngle(i) => IndexedKey("tone[", i, "].angle")
    case ToneOrigin(i) => IndexedKey("tone[", i, "].origin")
    case ToneOffset(i) => IndexedKey("tone[", i, "].offset")
  }

  /**
   halftone3.cpp's `for(int i=0;i<3;i++) if (param==strprintf(...))` scan: the
   first index from `from` on whose key is `key`.
   */
  function MatchIndex(key: string, prefix: string, suffix: string, from: nat): (r: Option<nat>)
    requires from <= 3
    ensures r.Some? ==> from <= r.value < 3 && key == IndexedKey(prefix, r.value, suffix)
    ensures r.None? ==> forall i :: from <= i < 3 ==> key != IndexedKey(prefix, i, suffix)
    decreases 3 - from
  {
    if from == 3 then None
    else if key == IndexedKey(prefix, from, suffix) then Some(from)
    else MatchIndex(key, prefix, suffix, from + 1)
  }

  /** Which parameter a name string addresses, tested in halftone3.cpp's order. */
  function Classify(key: string): (n: ParamName)
    ensures n != Other ==> Known(n) && KeyOf(n) == key
  {
    if key == "size" then Size
    else if key == "type" then Type
    else if MatchIndex(key, "color[", "]", 0).Some? then ColorOf(MatchIndex(key, "color[", "]", 0).value)
    else if key == "subtractive" then Subtractive
    else if MatchIndex(key, "tone[", "].angle", 0).Some? then ToneAngle(MatchIndex(key, "tone[", "].angle", 0).value)
    else if MatchIndex(key, "tone[", "].origin", 0).Some? then ToneOrigin(MatchIndex(key, "tone[", "].origin", 0).value)
    else if MatchIndex(key, "tone[", "].offset", 0).Some? then ToneOffset(MatchIndex(key, "tone[", "].offset", 0).value)
    else Other
  }

  /**
   The layer's parameters: the shared mask size and type, the three
   primaries and the mode, the three screens and the separation matrix.
   */
  datatype LayerState = LayerState(
    size: Vec2,
    maskType: int,
    colors: seq<Color>,
    subtractive: bool,
    tones: seq<Tone>,
    matrix: seq<Vec3>)

  predicate WellFormed(s: LayerState)
  {
    |s.colors| == 3 && |s.tones| == 3 && |s.matrix| == 3
  }

  /** Every screen carries the shared size and type. */
  predicate FannedOut(s: LayerState)
    requires WellFormed(s)
  {
    forall i :: 0 <= i < 3 ==> s.tones[i].size == s.size && s.tones[i].maskType == s.maskType
  }

  /** The matrix is the one the current primaries and mode call for. */
  predicate MatrixCurrent(s: LayerState)
    requires WellFormed(s)
  {
    s.matrix == BuildMatrix(s.colors, s.subtractive)
  }

  predicate Synced(s: LayerState)
    requires WellFormed(s)
  {
    FannedOut(s) && MatrixCurrent(s)
  }

  /** What the per-pixel formula and a render task see of the layer. */
  function ScreenOf(s: LayerState): (sc: Screen)
    requires WellFormed(s)
    ensures Compositor.WellFormed(sc)
  {
    Screen(s.colors, s.subtractive, s.tones, s.matrix)
  }

  function WithToneSizes(tones: seq<Tone>, size: Vec2): (r: seq<Tone>)
    requires |tones| == 3
    ensures |r| == 3
    ensures forall i :: 0 <= i < 3 ==> r[i] == tones[i].(size := size)
  {
    [tones[0].(size := size), tones[1].(size := size), tones[2].(size := size)]
  }

  function WithToneTypes(tones: seq<Tone>, maskType: int): (r: seq<Tone>)
    requires |tones| == 3
    ensures |r| == 3
    ensures forall i :: 0 <= i < 3 ==> r[i] == tones[i].(maskType := maskType)
  {
    [tones[0].(maskType := maskType), tones[1].(maskType := maskType), tones[2].(maskType := maskType)]
  }

  /**
   Halftone3::sync (halftone3.cpp:193-250): copy the shared size and type to
   every screen and rebuild the matrix; nothing else changes.
   */
  function Sync(s: LayerState): (r: LayerState)
    requires WellFormed(s)
    ensures WellFormed(r) && Synced(r)
    ensures r.size == s.size && r.maskType == s.maskType
    ensures r.colors == s.colors && r.subtractive == s.subtractive
    ensures forall i :: 0 <= i < 3 ==> r.tones[i].origin == s.tones[i].origin && r.tones[i].angle == s.tones[i].angle
  {
    s.(tones := WithToneTypes(WithToneSizes(s.tones, s.size), s.maskType),
       matrix := BuildMatrix(s.colors, s.subtractive))
  }

  /** The screens the constructor creates: shared size and type, origin 0, angle 30 degrees times the index. */
  function InitialTones(size: Vec2, maskType: int): (r: seq<Tone>)
    ensures |r| == 3
    ensures forall i :: 0 <= i < 3 ==> r[i] == Tone(size, maskType, Vec2(0.0, 0.0), 30.0 * i as real)
  {
    [Tone(size, maskType, Vec2(0.0, 0.0), 0.0),
     Tone(size, maskType, Vec2(0.0, 0.0), 30.0),
     Tone(size, maskType, Vec2(0.0, 0.0), 60.0)]
  }

  /** The constructor's primaries: cyan, magenta and yellow when subtractive, else red, green and blue. */
  function DefaultColors(subtractive: bool): (c: seq<Color>)
    ensures |c| == 3
  {
    if subtractive then [Cyan, Magenta, Yellow] else [Red, Green, Blue]
  }

  /**
   The state the constructor builds before its closing `sync`: the defaults,
   the colours of the subtractive branch (the flag has just been set to
   true) and the identity matrix.
   */
  function Initial(): LayerState
  {
    var subtractive := true;
    LayerState(
      Vec2(0.25, 0.25),
      TypeSymmetric,
      DefaultColors(subtractive),
      subtractive,
      InitialTones(Vec2(0.25, 0.25), TypeSymmetric),
      Identity)
  }

  /** The state a newly constructed layer is in. */
  function Default(): LayerState
  {
    Sync(Initial())
  }

  /**
   Halftone3::set_param (halftone3.cpp:335-371): a known name with a value of
   the stored type is taken; size and type are copied to the screens, a
   colour or the mode re-syncs, an angle or origin (or its `offset` alias)
   changes its own screen. Anything else is left to the base class (None).
   */
  function SetParam(s: LayerState, key: string, value: Value): (r: Option<LayerState>)
    requires WellFormed(s)
    ensures r.Some? <==> Classify(key) != Other && TypeOf(value) == ParamType(Classify(key))
    ensures r.Some? ==> WellFormed(r.value)
  {
    var n := Classify(key);
    if n == Other || TypeOf(value) != ParamType(n) then None
    else
      match n
      case Size => Some(s.(size := value.v, tones := WithToneSizes(s.tones, value.v)))
      case Type => Some(s.(maskType := value.n, tones := WithToneTypes(s.tones, value.n)))
      case ColorOf(i) => Some(Sync(s.(colors := s.colors[i := value.c])))
      case Subtractive => Some(Sync(s.(subtractive := value.b)))
      case ToneAngle(i) => Some(s.(tones := s.tones[i := s.tones[i].(angle := value.degrees)]))
      case ToneOrigin(i) => Some(s.(tones := s.tones[i := s.tones[i].(origin := value.v)]))
      case ToneOffset(i) => Some(s.(tones := s.tones[i := s.tones[i].(origin := value.v)]))
  }

  /**
   Halftone3::get_param (halftone3.cpp:373-395): the stored value of a known
   name; the `offset` alias is not answered, and other names are left to the
   base class (None).
   */
  function GetParam(s: LayerState, key: string): (r: Option<Value>)
    requires WellFormed(s)
    ensures r.Some? <==> Classify(key) != Other && !Classify(key).ToneOffset?
    ensures r.Some? ==> TypeOf(r.value) == ParamType(Classify(key))
  {
    match Classify(key)
    case Size => Some(Vector(s.size))
    case Type => Some(Integer(s.maskType))
    case ColorOf(i) => Some(ColorValue(s.colors[i]))
    case Subtractive => Some(Bool(s.subtractive))
    case ToneAngle(i) => Some(Angle(s.tones[i].angle))
    case ToneOrigin(i) => Some(Vector(s.tones[i].origin))
    case ToneOffset(_) => None
    case Other => None
  }

  /** Every known name's key is recognised as that name: the keys are pairwise distinct. */
  lemma ClassifyKeyOf(n: ParamName)
    requires Known(n)
    ensures Classify(KeyOf(n)) == n
  {
    var key := KeyOf(n);
    match n
    case Size =>
    case Type =>
    case ColorOf(i) =>
      MatchIndexOf("color[", i, "]");
    case Subtractive =>
    case ToneAngle(i) =>
      assert key[0] == 't' && |key| == 13;
      MatchIndexOf("tone[", i, "].angle");
    case ToneOrigin(i) =>
      assert key[8] == 'o' && key[9] == 'r' && |key| == 14;
      MatchIndexOf("tone[", i, "].origin");
    case ToneOffset(i) =>
      assert key[8] == 'o' && key[9] == 'f' && |key| == 14;
      MatchIndexOf("tone[", i, "].offset");
  }

  /** The scan finds the index a key was built from. */
  lemma MatchIndexOf(prefix: string, i: nat, suffix: string)
    requires i < 3
    ensures MatchIndex(IndexedKey(prefix, i, suffix), prefix, suffix, 0) == Some(i)
  {
    var r := MatchIndex(IndexedKey(prefix, i, suffix), prefix, suffix, 0);
    assert r.Some?;
    assert IndexedKey(prefix, r.value, suffix)[|prefix|] == Digit(r.value);
    assert IndexedKey(prefix, i, suffix)[|prefix|] == Digit(i);
  }

  /** Channel indices past 2 are not the layer's: such names go to the base class. */
  lemma OutOfRangeIndex(s: LayerState, v: Value)
    requires WellFormed(s)
    ensures Classify("tone[5].angle") == Other && Classify("color[3]") == Other
    ensures SetParam(s, "tone[5].angle", v) == None && GetParam(s, "tone[5].angle") == None
  {
    assert "tone[5].angle"[5] == '5';
    assert "color[3]"[6] == '3';
  }

  /**
   A new layer: size (0.25, 0.25), symmetric masks, cyan, magenta and yellow
   in subtractive mode, screens at 0, 30 and 60 degrees with origin 0, and
   the identity matrix, which sync rebuilds to the same values.
   */
  lemma DefaultState()
    ensures var d := Default();
      && d.size == Vec2(0.25, 0.25) && d.maskType == TypeSymmetric
      && d.colors == [Cyan, Magenta, Yellow] && d.subtractive
      && d.tones == InitialTones(Vec2(0.25, 0.25), TypeSymmetric)
      && d.matrix == Identity == Initial().matrix
  {
    DefaultMatrix();
    DefaultTones();
  }

  lemma DefaultMatrix()
    ensures Default().matrix == Identity
  {
    assert Initial().colors == [Cyan, Magenta, Yellow] && Initial().subtractive;
    CmyIsIdentity();
  }

  lemma DefaultTones()
    ensures Default().tones == InitialTones(Vec2(0.25, 0.25), TypeSymmetric)
  {
    var init := Initial();
    assert FannedOut(init);
    FannedOutTonesKept(init);
  }

  /** Sync leaves the screens alone when they already carry the shared size and type. */
  lemma FannedOutTonesKept(s: LayerState)
    requires WellFormed(s) && FannedOut(s)
    ensures Sync(s).tones == s.tones
  {
    var t := Sync(s).tones;
    assert forall i :: 0 <= i < 3 ==> t[i] == s.tones[i];
  }

  /** Sync changes nothing in a synced state; in particular it is idempotent. */
  lemma SyncFixesSynced(s: LayerState)
    requires WellFormed(s) && Synced(s)
    ensures Sync(s) == s
  {
    FannedOutTonesKept(s);
  }

  lemma SyncIdempotent(s: LayerState)
    requires WellFormed(s)
    ensures Sync(Sync(s)) == Sync(s)
  {
    SyncFixesSynced(Sync(s));
  }

  /** A successful set keeps a synced layer synced: the fan-out and the matrix never go stale. */
  lemma SetKeepsSynced(s: LayerState, key: string, v: Value)
    requires WellFormed(s) && Synced(s)
    requires SetParam(s, key, v).Some?
    ensures Synced(SetParam(s, key, v).value)
  {
    var r := SetParam(s, key, v).value;
    match Classify(key)
    case Size =>
    case Type =>
    case ColorOf(i) =>
    case Subtractive =>
    case ToneAngle(i) =>
      assert forall j :: 0 <= j < 3 ==> r.tones[j].size == s.tones[j].size && r.tones[j].maskType == s.tones[j].maskType;
    case ToneOrigin(i) =>
      assert forall j :: 0 <= j < 3 ==> r.tones[j].size == s.tones[j].size && r.tones[j].maskType == s.tones[j].maskType;
    case ToneOffset(i) =>
      assert forall j :: 0 <= j < 3 ==> r.tones[j].size == s.tones[j].size && r.tones[j].maskType == s.tones[j].maskType;
  }

  /**
   Setting a colour or the mode leaves a synced layer whatever state it
   started from: the matrix is rebuilt before the set returns.
   */
  lemma ColorOrModeSyncs(s: LayerState, key: string, v: Value)
    requires WellFormed(s)
    requires Classify(key).ColorOf? || Classify(key).Subtractive?
    requires SetParam(s, key, v).Some?
    ensures var r := SetParam(s, key, v).value;
      Synced(r) && r.matrix == BuildMatrix(r.colors, r.subtractive)
  {
  }

  /**
   Setting colour i of a synced layer stores it, rebuilds matrix row i from
   it, and changes nothing else: the other colours and rows, the mode, the
   size, the type and the screens are kept.
   */
  lemma ColorSetIsLocal(s: LayerState, i: nat, c: Color)
    requires WellFormed(s) && Synced(s) && i < 3
    ensures SetParam(s, KeyOf(ColorOf(i)), ColorValue(c))
            == Some(s.(colors := s.colors[i := c], matrix := s.matrix[i := Row(SourceVector(c, s.subtractive))]))
  {
    ClassifyKeyOf(ColorOf(i));
    var u := s.(colors := s.colors[i := c]);
    FannedOutTonesKept(u);
    assert BuildMatrix(u.colors, u.subtractive) == s.matrix[i := Row(SourceVector(c, s.subtractive))];
  }

  /**
   Setting the mode of a synced layer stores it and rebuilds the whole matrix
   for the same colours; nothing else changes.
   */
  lemma ModeSetIsLocal(s: LayerState, b: bool)
    requires WellFormed(s) && Synced(s)
    ensures SetParam(s, "subtractive", Bool(b))
            == Some(s.(subtractive := b, matrix := BuildMatrix(s.colors, b)))
  {
    ClassifyKeyOf(Subtractive);
    FannedOutTonesKept(s.(subtractive := b));
  }

  /** Setting the size stores it and copies it to every screen, and touches nothing else. */
  lemma SizeFansOut(s: LayerState, size: Vec2)
    requires WellFormed(s)
    ensures var r := SetParam(s, "size", Vector(size));
      && r.Some? && r.value.size == size
      && (forall i :: 0 <= i < 3 ==> r.value.tones[i] == s.tones[i].(size := size))
      && r.value == s.(size := size, tones := r.value.tones)
  {
    ClassifyKeyOf(Size);
  }

  /** Setting the type stores it and copies it to every screen, and touches nothing else. */
  lemma TypeFansOut(s: LayerState, maskType: int)
    requires WellFormed(s)
    ensures var r := SetParam(s, "type", Integer(maskType));
      && r.Some? && r.value.maskType == maskType
      && (forall i :: 0 <= i < 3 ==> r.value.tones[i] == s.tones[i].(maskType := maskType))
      && r.value == s.(maskType := maskType, tones := r.value.tones)
  {
    ClassifyKeyOf(Type);
  }

  /**
   An angle, origin or offset set changes that one screen's angle or origin
   and nothing else.
   */
  lemma ToneUpdateIsLocal(s: LayerState, key: string, v: Value)
    requires WellFormed(s)
    requires Classify(key).ToneAngle? || Classify(key).ToneOrigin? || Classify(key).ToneOffset?
    requires SetParam(s, key, v).Some?
    ensures var r, i := SetParam(s, key, v).value, Classify(key).i;
      && r == s.(tones := r.tones)
      && (forall j :: 0 <= j < 3 && j != i ==> r.tones[j] == s.tones[j])
      && r.tones[i].size == s.tones[i].size && r.tones[i].maskType == s.tones[i].maskType
      && (Classify(key).ToneAngle? ==> r.tones[i] == s.tones[i].(angle := v.degrees))
      && (!Classify(key).ToneAngle? ==> r.tones[i] == s.tones[i].(origin := v.v))
  {
  }

  /** `tone[i].offset` sets what `tone[i].origin` sets, but only `origin` can be read back. */
  lemma OffsetAliasesOrigin(s: LayerState, i: nat, v: Value)
    requires WellFormed(s) && i < 3
    ensures SetParam(s, KeyOf(ToneOffset(i)), v) == SetParam(s, KeyOf(ToneOrigin(i)), v)
    ensures GetParam(s, KeyOf(ToneOffset(i))) == None
    ensures GetParam(s, KeyOf(ToneOrigin(i))) == Some(Vector(s.tones[i].origin))
  {
    ClassifyKeyOf(ToneOffset(i));
    ClassifyKeyOf(ToneOrigin(i));
  }

  /** What a successful set stores is what get answers (under `origin` for the `offset` alias). */
  lemma GetAfterSet(s: LayerState, key: string, v: Value)
    requires WellFormed(s)
    requires SetParam(s, key, v).Some?
    ensures var r, n := SetParam(s, key, v).value, Classify(key);
      && (!n.ToneOffset? ==> GetParam(r, key) == Some(v))
      && (n.ToneOffset? ==> GetParam(r, KeyOf(ToneOrigin(n.i))) == Some(v))
  {
    var n := Classify(key);
    if n.ToneOffset? {
      ClassifyKeyOf(ToneOrigin(n.i));
    }
  }

  /** Setting a parameter of a synced layer to the value it already has changes nothing. */
  lemma SetCurrentValue(s: LayerState, key: string)
    requires WellFormed(s) && Synced(s)
    requires GetParam(s, key).Some?
    ensures SetParam(s, key, GetParam(s, key).value) == Some(s)
  {
    var v := GetParam(s, key).value;
    var r := SetParam(s, key, v).value;
    match Classify(key)
    case Size =>
      assert r.tones == s.tones;
    case Type =>
      assert r.tones == s.tones;
    case ColorOf(i) =>
      assert s.colors[i := s.colors[i]] == s.colors;
      SyncFixesSynced(s);
    case Subtractive =>
      SyncFixesSynced(s);
    case ToneAngle(i) =>
      assert r.tones == s.tones;
    case ToneOrigin(i) =>
      assert r.tones == s.tones;
  }
}
