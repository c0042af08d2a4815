# Halftone3 in Dafny

A model of synfig's `Halftone3` filter layer
(`synfig-core/src/modules/mod_filter/halftone3.cpp`). The layer simulates a
three-ink halftone print. It has four parts:

- a 3x3 separation matrix, built from three primary colours and an
  additive/subtractive flag;
- three halftone screens (mask size, mask type, origin, angle). Size and type
  are shared, and every screen gets a copy of them;
- a per-pixel compositor. It turns the input pixel into three channel
  intensities, asks each screen for its dot coverage, and then either subtracts
  the complemented primaries from white or adds the primaries to black. The
  input alpha is kept;
- a name-keyed parameter protocol (`set_param` / `get_param`), and a render
  task that takes a snapshot of the parameters.

Modules:

- `Colors` (`colors.dfy`): the RGBA value with `+`, `-`, scalar `*`, the
  complement `~c` and `set_a`.
- `Separation` (`separation.dfy`): the matrix rows that `sync` builds.
- `Halftone` (`halftone.dfy`): the screen parameters and the mask function.
  The mask is a function value that the model does not define.
- `Compositor` (`compositor.dfy`): the formula shared by `color_func` and
  `TaskHalfTone3SW::get_color`.
- `Params` (`params.dfy`): the layer state as a value, `sync`, the
  constructor's defaults, and `set_param` / `get_param` as functions. It also
  holds the lemmas about them.
- `Layer` (`layer.dfy`): the `Halftone3` class, whose array fields the
  constructor, `Sync` and `SetParam` update in place, and the `TaskHalfTone3`
  snapshot class. `Sync`, `SetParam`, `GetParam`, `BuildTask` and the
  constructor are proved against the functions in `Params`; the helpers that
  allocate arrays (`NewTones`, `NewIdentity`, the task's constructor) state
  their contents directly.

Numbers are reals. The double division in `sync` is kept. The code divides each
non-zero row by its length `mult` and then by `mult` again, so the row is the
source vector divided by `mult * mult`. Dafny reals have no square root. The
model therefore divides once by the squared length, and
`Separation.RowIsDividedTwice` proves that this equals the code's two divisions
for every `mult >= 0` with `mult * mult` equal to the squared length.
`sync` does not normalise the rows to unit length: `Separation.RowLength`
shows a non-zero row has length `1/mult`, and `Separation.RowUnitIff` that it
is unit length exactly when its source vector is (as for the default cyan,
magenta and yellow).

Some rows of the table below name definitions (functions whose contract
only spells out their own value); what is proved about them is in the
lemma rows that follow.

## Model

| member | source | states |
|---|---|---|
| Colors.Invert | synfig-core/src/modules/mod_filter/halftone3.cpp:306-308 | `~c` complements each colour channel to 1 and keeps alpha |
| Colors.WithAlpha | synfig-core/src/modules/mod_filter/halftone3.cpp:310 | definition: `set_a` replaces alpha and keeps the colour channels |
| Colors.PrimariesComplement | synfig-core/src/modules/mod_filter/halftone3.cpp:168-179 | the constructor's subtractive primaries (cyan, magenta, yellow) are the complements of its additive ones (red, green, blue) |
| Separation.SourceVector | synfig-core/src/modules/mod_filter/halftone3.cpp:210-235 | definition: a row starts from `1 - rgb` of its primary in subtractive mode and from `rgb` otherwise |
| Separation.Row | synfig-core/src/modules/mod_filter/halftone3.cpp:217-226 | a row whose source has zero length is left as its source, with no division |
| Separation.RowScalesBack | synfig-core/src/modules/mod_filter/halftone3.cpp:217-226 | a non-zero row times the squared length `mult*mult` gives back its source vector |
| Separation.DividedTwice | synfig-core/src/modules/mod_filter/halftone3.cpp:217-226 | definition: the row exactly as written, divided by `mult` twice unless `mult` is zero; `Separation.RowIsDividedTwice` states it equals `Row` |
| Separation.GuardAgrees | synfig-core/src/modules/mod_filter/halftone3.cpp:217-218 | the guard `if(mult)` is true exactly when the squared length is non-zero |
| Separation.RowIsDividedTwice | synfig-core/src/modules/mod_filter/halftone3.cpp:210-247 | for every square root `mult >= 0` of the squared length, guarding on `mult` and dividing by it twice gives exactly `Row` |
| Separation.ZeroRow | synfig-core/src/modules/mod_filter/halftone3.cpp:214-218 | an all-zero source gives an all-zero row |
| Separation.RowLength | synfig-core/src/modules/mod_filter/halftone3.cpp:217-226 | a non-zero row's squared length is the reciprocal of its source's, so its length is `1/mult` |
| Separation.RowUnitIff | synfig-core/src/modules/mod_filter/halftone3.cpp:217-226 | a non-zero row has unit length exactly when its source vector has, so it is unit length only when `mult` is 1 |
| Separation.BuildMatrix | synfig-core/src/modules/mod_filter/halftone3.cpp:208-247 | definition: the matrix has three rows, and row i is `Row` of primary i's source vector in the current mode |
| Separation.RowIsOwnColours | synfig-core/src/modules/mod_filter/halftone3.cpp:210-247 | row i depends only on colour i and the mode |
| Separation.DegeneratePrimary | synfig-core/src/modules/mod_filter/halftone3.cpp:231-237 | a black primary (white in subtractive mode) gives an all-zero row |
| Separation.CmyIsIdentity | synfig-core/src/modules/mod_filter/halftone3.cpp:166-187 | cyan, magenta and yellow in subtractive mode give the identity matrix |
| Compositor.Intensities | synfig-core/src/modules/mod_filter/halftone3.cpp:299-316 | definition: `chan[i]` is row i of the matrix times `1 - rgb` (subtractive) or `rgb` (additive) of the input |
| Compositor.Responses | synfig-core/src/modules/mod_filter/halftone3.cpp:306-321 | definition: response i is screen i's mask at the point, for `chan[i]` and the supersample radius |
| Compositor.Mix | synfig-core/src/modules/mod_filter/halftone3.cpp:305-308 | definition: white minus each complemented primary times its response, or black plus each primary times its response (also lines 318-321); `Compositor.ChannelSums` and `Compositor.BlankScreens` state what it gives |
| Compositor.Composite | synfig-core/src/modules/mod_filter/halftone3.cpp:286-327 | the output alpha is the input alpha in both modes |
| Compositor.ChannelSums | synfig-core/src/modules/mod_filter/halftone3.cpp:305-323 | each output colour channel is 1 minus the responses weighted by the complemented primaries (subtractive), or the responses weighted by the primaries (additive) |
| Compositor.BlankScreens | synfig-core/src/modules/mod_filter/halftone3.cpp:305-323 | with every response 0 the output is white (subtractive) or black (additive), with the input alpha |
| Compositor.SubtractiveIsComplementOfAdditive | synfig-core/src/modules/mod_filter/halftone3.cpp:299-324 | a subtractive screen paints the complement of the additive screen with complemented primaries over the complemented input |
| Compositor.CmyReproduces | synfig-core/src/modules/mod_filter/halftone3.cpp:299-311 | CMY inks over the identity matrix, with masks whose coverage equals the intensity, reproduce the input pixel exactly |
| Compositor.RgbReproduces | synfig-core/src/modules/mod_filter/halftone3.cpp:312-324 | RGB light over the identity matrix, with such masks, reproduces the input pixel exactly |
| Params.MatchIndex | synfig-core/src/modules/mod_filter/halftone3.cpp:355-356 | the `for i < 3` scan over `strprintf` keys finds an index whose key is the name, or shows that no index from the start on has it |
| Params.Classify | synfig-core/src/modules/mod_filter/halftone3.cpp:336-370 | a name the layer handles is the key of a known parameter with index below 3 |
| Params.ClassifyKeyOf | synfig-core/src/modules/mod_filter/halftone3.cpp:338-368 | every parameter key names exactly its own parameter (the keys are pairwise distinct) |
| Params.OutOfRangeIndex | synfig-core/src/modules/mod_filter/halftone3.cpp:355-370 | `tone[5].angle` and `color[3]` are not the layer's: set and get pass them to the base class |
| Params.Sync | synfig-core/src/modules/mod_filter/halftone3.cpp:193-250 | after sync every screen carries the shared size and type, and the matrix matches the colours and mode. Size, type, colours, mode, origins and angles are unchanged |
| Params.SyncFixesSynced | synfig-core/src/modules/mod_filter/halftone3.cpp:193-250 | sync changes nothing in a synced state |
| Params.SyncIdempotent | synfig-core/src/modules/mod_filter/halftone3.cpp:193-250 | running sync twice gives the same state as running it once |
| Params.FannedOutTonesKept | synfig-core/src/modules/mod_filter/halftone3.cpp:202-206 | the fan-out in sync leaves screens that already carry the shared size and type untouched |
| Params.WithToneSizes | synfig-core/src/modules/mod_filter/halftone3.cpp:202-206 | definition: every screen gets the shared size and keeps its other fields (also lines 340-341); used by `Params.Sync` and `Params.SizeFansOut` |
| Params.WithToneTypes | synfig-core/src/modules/mod_filter/halftone3.cpp:202-206 | definition: every screen gets the shared type and keeps its other fields (also lines 346-347); used by `Params.Sync` and `Params.TypeFansOut` |
| Params.DefaultColors | synfig-core/src/modules/mod_filter/halftone3.cpp:168-179 | definition: the constructor's primaries, cyan/magenta/yellow when subtractive, else red/green/blue; always three |
| Params.Initial | synfig-core/src/modules/mod_filter/halftone3.cpp:153-186 | definition: the state the constructor builds before its closing `sync`; `Params.DefaultState` states its values |
| Params.Default | synfig-core/src/modules/mod_filter/halftone3.cpp:153-191 | definition: the state of a new layer, `sync` of `Params.Initial`; `Params.DefaultState` states its values |
| Params.InitialTones | synfig-core/src/modules/mod_filter/halftone3.cpp:158-164 | the constructor's screen i has the shared size and type, origin (0,0) and angle 30·i degrees |
| Params.DefaultState | synfig-core/src/modules/mod_filter/halftone3.cpp:153-191 | a new layer has size (0.25,0.25), the symmetric type, cyan/magenta/yellow, subtractive mode, screens at 0/30/60 degrees with origin 0, and the identity matrix, which sync rebuilds unchanged |
| Params.DefaultMatrix | synfig-core/src/modules/mod_filter/halftone3.cpp:183-187 | the matrix of a new layer is the identity |
| Params.DefaultTones | synfig-core/src/modules/mod_filter/halftone3.cpp:158-164 | sync keeps the constructor's screens |
| Params.SetParam | synfig-core/src/modules/mod_filter/halftone3.cpp:335-371 | a set is taken exactly when the name is the layer's and the value has the stored type; the result is well formed |
| Params.GetParam | synfig-core/src/modules/mod_filter/halftone3.cpp:373-395 | get answers exactly the layer's names other than the `offset` alias, with a value of the stored type |
| Params.SetKeepsSynced | synfig-core/src/modules/mod_filter/halftone3.cpp:338-368 | a successful set keeps a synced layer synced (fan-out and matrix) |
| Params.ColorOrModeSyncs | synfig-core/src/modules/mod_filter/halftone3.cpp:350-354 | after a successful colour or mode set, the matrix matches the new colours and mode, whatever the state before |
| Params.ColorSetIsLocal | synfig-core/src/modules/mod_filter/halftone3.cpp:350-352 | on a synced layer, setting `color[i]` stores the colour and rebuilds matrix row i from it; the other colours and rows, the mode, size, type and screens are unchanged |
| Params.ModeSetIsLocal | synfig-core/src/modules/mod_filter/halftone3.cpp:354 | on a synced layer, setting `subtractive` stores the mode and rebuilds the matrix for the same colours; nothing else changes |
| Params.SizeFansOut | synfig-core/src/modules/mod_filter/halftone3.cpp:338-343 | setting `size` stores it, copies it to every screen and changes nothing else |
| Params.TypeFansOut | synfig-core/src/modules/mod_filter/halftone3.cpp:344-348 | setting `type` stores it, copies it to every screen and changes nothing else |
| Params.ToneUpdateIsLocal | synfig-core/src/modules/mod_filter/halftone3.cpp:355-368 | an angle, origin or offset set changes only that screen's angle or origin |
| Params.OffsetAliasesOrigin | synfig-core/src/modules/mod_filter/halftone3.cpp:362-389 | setting `tone[i].offset` does what setting `tone[i].origin` does, but get answers only `origin` |
| Params.GetAfterSet | synfig-core/src/modules/mod_filter/halftone3.cpp:335-395 | get returns what a successful set stored (under `origin` for the `offset` alias) |
| Params.SetCurrentValue | synfig-core/src/modules/mod_filter/halftone3.cpp:335-395 | on a synced layer, setting a parameter to the value get returns changes nothing |
| Layer.TaskHalfTone3.constructor | synfig-core/src/modules/mod_filter/halftone3.cpp:71-74 | a new task has fresh 3-element colour and screen arrays, a 3x3 matrix, and `subtractive` false |
| Layer.TaskHalfTone3.GetColor | synfig-core/src/modules/mod_filter/halftone3.cpp:98-134 | the task's pixel colour keeps the input alpha |
| Layer.NewTones | synfig-core/src/modules/mod_filter/halftone3.cpp:158-164 | the constructor's screen loop fills the three screens with `InitialTones` |
| Layer.NewIdentity | synfig-core/src/modules/mod_filter/halftone3.cpp:183-185 | the constructor's matrix loop writes the 3x3 identity |
| Layer.Halftone3.constructor | synfig-core/src/modules/mod_filter/halftone3.cpp:153-191 | a new layer is valid and in the default state, with amount 1 and straight blending, and owns fresh colour, screen and matrix arrays |
| Layer.Halftone3.Sync | synfig-core/src/modules/mod_filter/halftone3.cpp:193-250 | the fields after the call are `Params.Sync` of the fields before |
| Layer.Halftone3.CopySizeToTones | synfig-core/src/modules/mod_filter/halftone3.cpp:202-206 | every screen gets the shared size, and nothing else in the screens changes |
| Layer.Halftone3.CopyTypeToTones | synfig-core/src/modules/mod_filter/halftone3.cpp:202-206 | every screen gets the shared type, and nothing else in the screens changes |
| Layer.Halftone3.RebuildRow | synfig-core/src/modules/mod_filter/halftone3.cpp:210-247 | one pass of the row loop sets row i to `Row` of primary i's source vector and keeps the other rows |
| Layer.Halftone3.SetParam | synfig-core/src/modules/mod_filter/halftone3.cpp:335-371 | when `Params.SetParam` takes the value, returns true with its result as the new fields and the opacity and blend method kept; otherwise (another name, or a value of the wrong type) the parameters are unchanged and the base class's `set_param` (line 370, a parameter) decides the result and the new opacity and blend method; the layer stays valid |
| Layer.Halftone3.SetSharedParam | synfig-core/src/modules/mod_filter/halftone3.cpp:338-348 | `size` and `type` with a value of the right type are stored and copied to the screens, as `Params.SetParam` says |
| Layer.Halftone3.SetSeparationParam | synfig-core/src/modules/mod_filter/halftone3.cpp:350-354 | `color[i]` and `subtractive` with a value of the right type are stored and re-synced, as `Params.SetParam` says |
| Layer.Halftone3.SetToneParam | synfig-core/src/modules/mod_filter/halftone3.cpp:355-368 | `tone[i].angle`, `tone[i].origin` and `tone[i].offset` with a value of the right type change that screen, as `Params.SetParam` says |
| Layer.Halftone3.GetParam | synfig-core/src/modules/mod_filter/halftone3.cpp:373-395 | the answer is `Params.GetParam` of the layer's fields |
| Layer.Halftone3.ColorFunc | synfig-core/src/modules/mod_filter/halftone3.cpp:286-327 | the layer's pixel colour keeps the input alpha |
| Layer.Halftone3.GetColor | synfig-core/src/modules/mod_filter/halftone3.cpp:441-451 | definition: at amount 1 with straight blending the result is `color_func` at supersample 0, with the alpha of the colour beneath; otherwise it is the blend |
| Layer.Halftone3.BuildTask | synfig-core/src/modules/mod_filter/halftone3.cpp:453-471 | no sub-task gives no task; otherwise a new task over the sub-task holds a copy of the colours, mode, screens and matrix |
| Layer.TaskAgreesWithLayer | synfig-core/src/modules/mod_filter/halftone3.cpp:98-134 | a task built from a layer paints every pixel as the layer's `color_func` does. Both are modelled by the one function `Compositor.Composite`, because lines 106-131 and 299-324 are the same formula written twice; that identity rests on reading the two copies side by side, not on a proof |

## Left out

- `pre_run` (halftone3.cpp:92-96): the supersample radius and the inverse
  transform. Both need the renderer's pixel density and affine transforms. The
  mask-space point and the supersample radius are inputs to the model.
- The halftone mask function (`Halftone::operator()` in `halftone.h`, which is
  not part of this model). It is a function parameter, `Halftone.Mask`.
- `Color::blend`: a function parameter of `Layer.Halftone3.GetColor`. The
  colour beneath (`context.get_color`) is a parameter too.
- `get_param_vocab`, `hit_check` and the layer/task registration macros. These
  are user-interface and framework plumbing.
- `run` and the pixel loop of the render task (framework code).
- The disabled Gauss-Jordan block in `sync` (halftone3.cpp:252-283), which is
  compiled out.
- `EXPORT_NAME()` / `EXPORT_VERSION()` in `get_param`, and the base class's
  `Layer_Composite::get_param` (line 394): `Params.GetParam` and
  `Layer.Halftone3.GetParam` answer `None` for every name the layer does not
  answer itself, so reading back `amount` or `blend_method` is not modelled.
- `Layer_Composite::set_param` (line 370) is a function parameter of
  `Layer.Halftone3.SetParam` that sees only the opacity and blend method; any
  other state of the base class (its z-depth, for instance) is not part of this
  model. `Params.SetParam` answers `None` for the names it passes on.
- `SET_INTERPOLATION_DEFAULTS` / `SET_STATIC_DEFAULTS` in the constructor, and
  the second `set_blend_method` call (the blend method is already straight).
- Float rounding. Everything is a real, so no result is claimed bit-exact.
- `Layer.Halftone3.Sync`: divides by the squared length `mult*mult` once
  instead of by `mult` twice, because reals have no square root.
  `Separation.RowIsDividedTwice` proves the rows are the same.
- `Layer.Halftone3.SetParam`: the code's one sequence of tests is written as
  three methods (`SetSharedParam`, `SetSeparationParam`, `SetToneParam`),
  called in the code's order.
- `Layer.TaskHalfTone3.GetColor`: works on a point already mapped into mask
  space by the inverse transform.
- Value types: the type check of `IMPORT_VALUE_PLUS` compares the stored
  value's type with the new value's type. A stored parameter never changes
  type, so the model compares against a fixed type per name (`ParamType`).
