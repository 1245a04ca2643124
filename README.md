# A Dafny model of the Chireiden game core

This project models the deterministic core of *Chireiden*, a third-person action game written in C# with OpenTK, together with its level editor (SALevelEditor), its shape-key preprocessor (ShapeKeyProcessor) and the two Python scripts that generate its particle gradient textures. Each Dafny module corresponds to one source file, and each takes the source's own form. A class whose methods update fields in place is a Dafny `class` whose methods state the new state. A loop is a `method` with invariants, proved against a specification function. Expression-only code is a function. The properties the code promises are stated as contracts and lemmas.

The modules cover the following:

* **Animation and skeletons.**
  * `KeyframeSeries`: the binary search `findTimeBelow` over keyframe times (all three overloads), the clip-slicing constructors of the rotation, location and combined series, and frame sampling with its blend factor.
  * `Animation`: `AnimationClip`'s bone channels, its duration and the posing of a skeleton.
  * `Armature`: `ArmatureBone`'s parent/child links.
  * `MeshImporter`: finding the armature, collecting root-to-bone branches, pruning the node tree, flattening it in preorder with a name-to-index map.
  * `VertexWeights`: the prefix-offset layout of per-vertex bone weights (`collectVertexWeights`).
  * `SkeletalMeshes` (`SkeletalMeshGroup`) and `SkeletalNodes` (`SkeletalMeshNode`): clip library, current clip and clip time.
* **Characters.**
  * `Okuu`: the player's ten-state machine (`UtsuhoReiuji`), with input priority, the three-swing attack combo, action buffering and deferred transitions.
  * `Zombie`: the six-state enemy (`ZombieFairy`), with leash, stagger, knockout and distance-based chasing.
  * Both are pure step functions over a state record. A class mirrors the C# fields, and each of its methods ends in the state the step function gives.
* **Stages and levels.**
  * `Stages`: floor and wall quads from a tile grid, grouped by material with offset face indices (`setUpStage`), and the `Stage` node.
  * `StageImporter` and `Text`: the level-file reader over a sequence of lines.
  * `StageWorld`: the world positions of the level's actors (`makeStageWorld`).
  * `LevelExport`: the editor's writer, with the round trip from writer to reader.
  * `LevelMaps` (`LevelMap`) and `MapTextures` (`MapTexture`): the editor's grid and its transposed texel array.
* **Particles.**
  * `Particles`: the capped particle list and the ring-buffer head of `ParticleSystem`.
  * `ParticleEmitters` and `ExplosionEmitters`: the fractional accumulator loops of the emitters. An explosion spawn costs two units of the accumulator.
* **Cameras.**
  * `TrackingCameras`: zoom and rotation clamps, and the light arrays handed to the shader.
  * `OrthoCameras`: the editor's pan and zoom.
* **Shape keys.**
  * `ShapeKeys`: reading OBJ vertex lines, extracting the moved vertices, matching them to the imported meshes, and the output line formats.
* **Gradient textures.**
  * `Gradients`, `FlashTexture` and `ReactionTexture`: the per-pixel formulas of `genFlash.py` and `genReaction.py`, with true division.

Floating-point values are modelled as reals. Exceptions the C# code would throw are error values: `FormatException`, `IndexOutOfRangeException`, `NullReferenceException`, an overflow, a duplicate key from `Dictionary.Add`, and the plain `Exception`s of a missing bone or a missing animation. Where a constructor can throw, a method such as `NewAnimationClip` returns the exception or the new object, and the constructor itself requires exactly the inputs on which it does not throw.

Four behaviours of the code are worth knowing before reading the tables. In each case the model follows the code.

* In `genReaction.py` the segment tests compare the integer pixel index with 51.2 and 102.4. Pixel 51 therefore takes the first segment's constant colour. Pixel 52 is the first ramp pixel.
* `LocationKeyframes` makes room for a wrap-around frame but never fills it (KeyframeSeries.cs:207-229). With wrap on and more than one frame, the last time stays 0, so the series' `Length` is 0.
* `beHurt` does not reset the attack stage. A hit during the recovery from the third swing therefore lets a later attack reach stage 4, which plays the cheer animation. `Okuu.AttackStageCanPassThree` exhibits this.
* `SkeletalMeshGroup.advanceAnimation` computes the new clip time into a local and discards it.

## Model

| member | source | states |
|---|---|---|
| Animation.LastSetFor | Final5625/Meshes/Animations/AnimationClip.cs:27-41 | the frame set that ends up in bone k's channel is the last one whose node maps to k; none when no set maps to k |
| Animation.LastSetForStep | Final5625/Meshes/Animations/AnimationClip.cs:27-41 | one more frame set either becomes bone k's last set (when its node maps to k) or leaves it as it was |
| Animation.ClipFailureNone | Final5625/Meshes/Animations/AnimationClip.cs:27-41 | the constructor throws exactly when the channel of some frame set of a known bone cannot be cut; sets of unknown nodes never make it throw |
| Animation.ClipFailureFirst | Final5625/Meshes/Animations/AnimationClip.cs:27-41 | the exception thrown is the one of the first frame set of a known bone whose channel cannot be cut (its rotation series first, then its location series); every earlier set is cut |
| Animation.MaxLengthSpec | Final5625/Meshes/Animations/AnimationClip.cs:44-49 | the duration is at least 0, no shorter than any non-null channel, and either 0 or the length of some channel |
| Animation.MakeChannel | Final5625/Meshes/Animations/AnimationClip.cs:35-38 | for a frame set whose series can both be cut, a fresh channel whose rotation and location series are cut from it for the cue and which carries the node's name and bone ID |
| Animation.BuildChannels | Final5625/Meshes/Animations/AnimationClip.cs:25-41 | when no channel throws: numBones slots; slot k holds the channel built from the last frame set whose node maps to k, and is null when there is none; unknown nodes are skipped |
| Animation.LongestChannel | Final5625/Meshes/Animations/AnimationClip.cs:44-49 | the duration loop returns the maximum length over the non-null channels (0 when all are null) |
| Animation.AnimationClip.constructor | Final5625/Meshes/Animations/AnimationClip.cs:23-50 | when no channel throws: numBones channels, each from the last frame set for that bone; Name and Wrap copied from the cue; Duration the longest channel |
| Animation.AnimationClip.ApplyAnimationToSkeleton | Final5625/Meshes/Animations/AnimationClip.cs:52-69 | every bone with a null channel is put in its rest pose, every other takes its channel's location and rotation at `time`; more bones than channels raises IndexOutOfRange after the bones that fit |
| Animation.NewAnimationClip | Final5625/Meshes/Animations/AnimationClip.cs:23-50 | `new AnimationClip` as a result: the exception of the first channel that cannot be cut, or else the clip the constructor builds |
| Armature.RemoveFirstSpec | Final5625/Meshes/ArmatureBone.cs:48 | List.Remove drops exactly one copy of a present element (multiset minus one) and leaves a list without it unchanged |
| Armature.RemoveAppended | Final5625/Meshes/ArmatureBone.cs:42-48 | appending an absent child then removing it gives the original list |
| Armature.ArmatureBone.constructor | Final5625/Meshes/ArmatureBone.cs:26-35 | rest pose from the argument, identity pose translation and rotation, no children, no parent, the given name |
| Armature.ArmatureBone.AddChild | Final5625/Meshes/ArmatureBone.cs:37-44 | a null child changes nothing; otherwise the child is appended and its Parent is this bone; no other field changes |
| Armature.ArmatureBone.RemoveChild | Final5625/Meshes/ArmatureBone.cs:46-52 | a child in the list loses its first occurrence and its parent; a null or absent child changes nothing |
| Armature.ArmatureBone.SetPoseTranslation | Final5625/Meshes/Animations/AnimationClip.cs:65 | only the pose translation changes |
| Armature.ArmatureBone.SetPoseRotation | Final5625/Meshes/Animations/AnimationClip.cs:66 | only the pose rotation changes |
| Armature.ArmatureBone.SetPoseToRest | Final5625/Meshes/Animations/AnimationClip.cs:60 | both pose matrices become the identity; nothing else changes |
| Armature.AddThenRemove | Final5625/Meshes/ArmatureBone.cs:37-52 | addChild then removeChild of a new child restores the children list and leaves the child without a parent |
| Common.Clamp | Final5625/TrackingCamera.cs:156-185 | Math.Max(Math.Min(v, hi), lo) lies in [lo, hi]; it is v inside the range and the nearer bound outside it |
| Common.TruncatedRemainder | Final5625/Scenes/SkeletalMeshNode.cs:24 | C#'s floating-point % truncates toward zero: for x >= 0 the result lies in [0, m), for x <= 0 in (-m, 0], and it is x itself when x is already inside (-m, m) |
| Common.RemainderBounds | Final5625/Scenes/SkeletalMeshNode.cs:24 | for x >= 0, x minus the whole multiples of m lies in [0, m); no multiple is taken off when x < m |
| Common.FractionBounds | Final5625/Meshes/Animations/KeyframeSeries.cs:180 | the blend factor (t - timeBefore) / (timeAfter - timeBefore) lies in [0, 1) when t is in [timeBefore, timeAfter) |
| Text.Split | Final5625/Scenes/Stages/StageImporter.cs:31 | String.Split(' ') yields at least one piece |
| Text.SplitExcludesSeparator | Final5625/Scenes/Stages/StageImporter.cs:31 | no piece of a split line contains the separator |
| Text.SplitWithoutSeparator | Final5625/Scenes/Stages/StageImporter.cs:31 | a line without the separator splits into itself alone |
| Text.SplitAfterPiece | Final5625/Scenes/Stages/StageImporter.cs:31 | splitting piece + separator + rest gives the piece followed by the split of the rest |
| Text.SplitJoin | SALevelEditor/LevelMap_Export.cs:17-41 | a line written as space-joined pieces splits back into exactly those pieces when none holds a space |
| Text.DigitsValueDefined | Final5625/Scenes/Stages/StageImporter.cs:33 | a string of digits has a decimal value exactly when every character is a digit |
| Text.NatToString | SALevelEditor/LevelMap_Export.cs:28 | a natural number is printed as at least one decimal digit and nothing else |
| Text.IntToString | SALevelEditor/LevelMap_Export.cs:28 | a printed integer is non-empty and starts with a minus sign exactly when it is negative |
| Text.NatToStringValue | SALevelEditor/LevelMap_Export.cs:28 | the decimal digits printed for n read back as n |
| Text.TrimStart | Final5625/Scenes/Stages/StageImporter.cs:33 | the leading white space TryParse allows is gone and nothing is added |
| Text.TrimEnd | Final5625/Scenes/Stages/StageImporter.cs:33 | the trailing white space TryParse allows is gone and nothing is added |
| Text.TrimNumeral | Final5625/Scenes/Stages/StageImporter.cs:33 | a string starting and ending in non-white characters is left as it is by trimming |
| Text.ParseInt | Final5625/Scenes/Stages/StageImporter.cs:33 | Int32.TryParse succeeds only with a value that fits in 32 bits |
| Text.ParseReal | Final5625/Scenes/Stages/StageImporter.cs:96 | float.TryParse on plain decimals succeeds only on a non-blank string, and a negative value comes from a leading minus sign |
| Text.ParseIntToString | Final5625/Scenes/Stages/StageImporter.cs:33 | Int32.TryParse of a printed 32-bit integer gives it back |
| Text.FractionValue | Final5625/Scenes/Stages/StageImporter.cs:96 | the digits after a decimal point stand for a value in [0, 1] |
| Text.PointIndex | Final5625/Scenes/Stages/StageImporter.cs:96 | the decimal point, when there is one, is found inside the numeral |
| Text.PointIndexOfDigits | Final5625/Scenes/Stages/StageImporter.cs:96 | a numeral of digits only has no decimal point |
| Text.ParseRealOfIntString | Final5625/Scenes/Stages/StageImporter.cs:96 | float.TryParse of a printed integer gives the integer as a real |
| Text.IntToStringNoSpace | SALevelEditor/LevelMap_Export.cs:28 | a printed integer holds no space, so it stays one piece of the split line |
| Gradients.FadeBounds | Final5625/data/texture/particle/genFlash.py:10-15 | both factors lie in [0, 1]; the fade-in is 0 only at pixel 0 and 1 exactly from pixel 26 on; the fade-out is 1 exactly up to pixel 204 and positive everywhere |
| Gradients.ToPixelInRange | Final5625/data/texture/particle/genFlash.py:18 | a colour in [0, 1] is stored as four channels in [0, 255] |
| Gradients.UnitProduct | Final5625/data/texture/particle/genFlash.py:11 | scaling a value of [0, 1] by a factor of [0, 1] keeps it in [0, 1] and never increases it |
| Gradients.ScaledUnit | Final5625/data/texture/particle/genFlash.py:11-15 | fading all four channels keeps a unit colour a unit colour |
| Gradients.ScaledRGBUnit | Final5625/data/texture/particle/genReaction.py:17-19 | fading only red, green and blue keeps a unit colour a unit colour |
| Gradients.Py2Fades | Final5625/data/texture/particle/genFlash.py:10-14 | under Python 2's integer division the fade-in is 0 on the whole row and the fade-out is 0 everywhere but pixel 0 |
| FlashTexture.FlashInRange | Final5625/data/texture/particle/genFlash.py:6-18 | every pixel written is a valid RGBA byte quadruple with no blue |
| FlashTexture.FlashFirstPixelBlank | Final5625/data/texture/particle/genFlash.py:10-11 | pixel 0 is transparent black because the fade-in is 0 there |
| FlashTexture.FlashPlateau | Final5625/data/texture/particle/genFlash.py:7-18 | pixels 26 to 204 are the full orange (255, 204, 0, 255) |
| FlashTexture.FlashFadesIn | Final5625/data/texture/particle/genFlash.py:9-11 | over pixels 0 to 25 no channel decreases from one pixel to a later one |
| FlashTexture.FlashLastPixel | Final5625/data/texture/particle/genFlash.py:13-15 | the last pixel is faded to (4, 3, 0, 4) |
| FlashTexture.FadeAndWrite | Final5625/data/texture/particle/genFlash.py:7-18 | the quadruple one loop pass writes at x is the flash texture's pixel x |
| FlashTexture.GenFlash | Final5625/data/texture/particle/genFlash.py:4-18 | the 1 by 256 array holds the flash texture's pixel x at every column x |
| FlashTexture.Py2FlashIsBlank | Final5625/data/texture/particle/genFlash.py:10-14 | under Python 2's integer division every pixel is transparent black, so the plateau is lost |
| ReactionTexture.SegmentsByIndex | Final5625/data/texture/particle/genReaction.py:8-15 | pixels 0 to 51 are the warm colour, 52 to 102 the ramp with a parameter strictly inside (0, 1), 103 on the grey |
| ReactionTexture.SegmentUnit | Final5625/data/texture/particle/genReaction.py:7-15 | every segment colour has its four channels in [0, 1] |
| ReactionTexture.ReactionInRange | Final5625/data/texture/particle/genReaction.py:6-26 | every pixel written is a valid RGBA byte quadruple |
| ReactionTexture.WarmSegmentTransparent | Final5625/data/texture/particle/genReaction.py:7-23 | the warm segment keeps alpha 0 through both fades |
| ReactionTexture.ReactionFirstPixelBlank | Final5625/data/texture/particle/genReaction.py:17-19 | pixel 0 is transparent black |
| ReactionTexture.GreyPlateau | Final5625/data/texture/particle/genReaction.py:13-26 | pixels 103 to 204 are the faint grey (25, 25, 25, 51) |
| ReactionTexture.AlphaOnlyFadesOut | Final5625/data/texture/particle/genReaction.py:17-23 | the fade-in leaves alpha alone: the written alpha is the segment's alpha times the fade-out |
| ReactionTexture.FadeAndWrite | Final5625/data/texture/particle/genReaction.py:17-26 | the quadruple one loop pass writes is the segment colour with red, green and blue faded in, all four faded out, scaled to bytes |
| ReactionTexture.GenReaction | Final5625/data/texture/particle/genReaction.py:4-26 | the 1 by 256 array holds the reaction texture's pixel x at every column x |
| ReactionTexture.Py2ReactionIsBlank | Final5625/data/texture/particle/genReaction.py:18-22 | under Python 2's integer division every pixel is transparent black, so the grey plateau is lost |
| KeyframeSeries.KeyTimes | Final5625/Meshes/Animations/KeyframeSeries.cs:45-62 | one time stamp per key, in the keys' order |
| KeyframeSeries.Search | Final5625/Meshes/Animations/KeyframeSeries.cs:20-35 | the binary search on a window [lower, upper) ends inside the window, or on lower when it is empty |
| KeyframeSeries.SearchIsFloor | Final5625/Meshes/Animations/KeyframeSeries.cs:25-34 | the loop's invariant (everything left of lower is at or below t, everything from upper on above it) makes the search end on the floor index |
| KeyframeSeries.TimeBelowIsFloor | Final5625/Meshes/Animations/KeyframeSeries.cs:20-35 | on strictly increasing times findTimeBelow returns the last index whose time is at or below t, or 0 when t precedes every time |
| KeyframeSeries.FloorIndexUnique | Final5625/Meshes/Animations/KeyframeSeries.cs:20-35 | the floor index is unique, so findTimeBelow's answer is determined by t and the times alone |
| KeyframeSeries.TimeBelowBeforeFirst | Final5625/Meshes/Animations/KeyframeSeries.cs:34 | a time before the first key selects key 0 |
| KeyframeSeries.TimeBelowAtKey | Final5625/Meshes/Animations/KeyframeSeries.cs:30 | the time of key i selects exactly key i |
| KeyframeSeries.TimeBelowMonotone | Final5625/Meshes/Animations/KeyframeSeries.cs:135-136 | a later time never selects an earlier key, so a clip's start frame is not after its end frame |
| KeyframeSeries.FindTimeBelow | Final5625/Meshes/Animations/KeyframeSeries.cs:20-35 | the loop returns the search's answer: 0 on an empty array, an index of the array otherwise |
| KeyframeSeries.FindTimeBelowKeys | Final5625/Meshes/Animations/KeyframeSeries.cs:37-69 | the same search over the keys' time stamps |
| KeyframeSeries.Choose | Final5625/Meshes/Animations/KeyframeSeries.cs:164-187 | a sample is either one existing keyframe or a blend between a key and the next one |
| KeyframeSeries.ChooseWithinClip | Final5625/Meshes/Animations/KeyframeSeries.cs:170-186 | between the first and the last key a sample blends the two keys surrounding t with a factor in [0, 1); from the last key on it holds the last keyframe |
| KeyframeSeries.ChooseAtKey | Final5625/Meshes/Animations/KeyframeSeries.cs:170-186 | sampling exactly at a key's time gives that key with blend factor 0 |
| KeyframeSeries.ClipFramesOrdered | Final5625/Meshes/Animations/KeyframeSeries.cs:135-140 | on a strip with increasing times a clip whose start is not after its end cuts a non-empty range of frames |
| KeyframeSeries.CutOutcome | Final5625/Meshes/Animations/KeyframeSeries.cs:135-144 | when the constructors throw: an empty strip always (IndexOutOfRange); a start frame at or before the end frame never; one frame past the end only without wrapping (IndexOutOfRange); two past, IndexOutOfRange with wrapping and an overflow without; further, an overflow |
| KeyframeSeries.CutAllowed | Final5625/Meshes/Animations/KeyframeSeries.cs:135-144 | when the constructors do not throw, the strip has a key, and a start frame past the end frame is exactly one past it with wrapping on |
| KeyframeSeries.CutRotationSeries | Final5625/Meshes/Animations/KeyframeSeries.cs:135-159 | on the inputs for which the constructor does not throw, the stored rotations and times: the cut of the clip's frames, or, only for a wrapping start frame one past the end frame, the single unfilled slot (zero quaternion, time 0); on increasing strip times the stored times increase |
| KeyframeSeries.CutLocationSeries | Final5625/Meshes/Animations/KeyframeSeries.cs:209-226 | on the inputs for which the constructor does not throw, the stored translations and times: the cut with the unfilled wrapping slot, or, only for a wrapping start frame one past the end frame, the single unfilled slot (zero vector, time 0); on increasing strip times no two neighbouring times coincide |
| KeyframeSeries.NewRotationKeyframes | Final5625/Meshes/Animations/KeyframeSeries.cs:133-162 | `new RotationKeyframes` as a result: exactly the exception CutFailure names, or else the series the constructor builds |
| KeyframeSeries.NewLocationKeyframes | Final5625/Meshes/Animations/KeyframeSeries.cs:207-229 | `new LocationKeyframes` as a result: exactly the exception CutFailure names, or else the series the constructor builds |
| KeyframeSeries.CutRotations | Final5625/Meshes/Animations/KeyframeSeries.cs:138-159 | the arrays hold frames startFrame..endFrame with times rebased to 0 and, when wrapping, the first rotation again one time step after the last |
| KeyframeSeries.CutLocations | Final5625/Meshes/Animations/KeyframeSeries.cs:212-226 | the arrays hold frames startFrame..endFrame with times rebased to 0; a wrapping slot is allocated but left at the zero vector and time 0 |
| KeyframeSeries.WrappedRotationsIncreasing | Final5625/Meshes/Animations/KeyframeSeries.cs:146-159 | a rotation clip's times are strictly increasing, the repeated first keyframe included |
| KeyframeSeries.WrappedLocationsDistinct | Final5625/Meshes/Animations/KeyframeSeries.cs:220-226 | a location clip's adjacent times differ, even with the unfilled wrapping slot at time 0, so every blend denominator is non-zero |
| KeyframeSeries.RebasedTimes | Final5625/Meshes/Animations/KeyframeSeries.cs:148 | the clip's times start at 0 and there is one per frame |
| KeyframeSeries.KeyValues | Final5625/Meshes/Animations/KeyframeSeries.cs:149-151 | one keyframe value per frame of the clip |
| KeyframeSeries.RebasedIncreasing | Final5625/Meshes/Animations/KeyframeSeries.cs:148 | rebasing keeps increasing times increasing |
| KeyframeSeries.AppendIncreasing | Final5625/Meshes/Animations/KeyframeSeries.cs:158 | appending a time after the last keeps the times increasing |
| KeyframeSeries.IncreasingDistinct | Final5625/Meshes/Animations/KeyframeSeries.cs:180 | increasing times have distinct neighbours |
| KeyframeSeries.RotationKeyframes.constructor | Final5625/Meshes/Animations/KeyframeSeries.cs:133-162 | whenever the C# constructor does not throw: for a start frame at or before the end frame, the series is the cut of frames findTimeBelow(start + LEEWAY)..findTimeBelow(end + LEEWAY) and Length is its last time; for a wrapping start frame just past the end frame, the single unfilled slot holds the zero quaternion at time 0; on increasing strip times it can be sampled |
| KeyframeSeries.RotationKeyframes.GetFrameAtTime | Final5625/Meshes/Animations/KeyframeSeries.cs:164-187 | the matrix is the rotation of the chosen keyframe, or the slerp of the two surrounding keyframes by the blend factor |
| KeyframeSeries.LocationKeyframes.constructor | Final5625/Meshes/Animations/KeyframeSeries.cs:207-229 | whenever the C# constructor does not throw: the cut of the clip's frames with the unfilled wrapping slot and Length its last time, or the single unfilled slot (zero vector at time 0) for a wrapping start frame just past the end frame; on increasing strip times it can be sampled |
| KeyframeSeries.LocationKeyframes.GetFrameAtTime | Final5625/Meshes/Animations/KeyframeSeries.cs:231-253 | the matrix is the translation of the chosen keyframe, or of the lerp of the two surrounding keyframes |
| KeyframeSeries.LocationAtKey | Final5625/Meshes/Animations/KeyframeSeries.cs:238-252 | sampling a location series at a key's time yields exactly that key's translation |
| KeyframeSeries.LocRotKeyframes.constructor | Final5625/Meshes/Animations/KeyframeSeries.cs:94-101 | Length is the larger of the two series' lengths; bone name and id are kept |
| KeyframeSeries.LocRotKeyframes.GetFrameAtTime | Final5625/Meshes/Animations/KeyframeSeries.cs:103-107 | the two matrices are the location and rotation series sampled at the same time |
| LevelExport.ColumnLines | SALevelEditor/LevelMap_Export.cs:26-29 | one `tile` line per tile of the column |
| LevelExport.ZombieLines | SALevelEditor/LevelMap_Export.cs:39-42 | one `zombie` line per fairy |
| LevelExport.ColumnLinesSnoc | SALevelEditor/LevelMap_Export.cs:26-29 | writing one more tile adds its line after the column's lines and changes none of them |
| LevelExport.TileLinesSnoc | SALevelEditor/LevelMap_Export.cs:24-30 | writing one more column adds its lines after the grid's lines |
| LevelExport.ZombieLinesSnoc | SALevelEditor/LevelMap_Export.cs:39-42 | writing one more fairy adds its line after the others |
| LevelExport.TileLinesLength | SALevelEditor/LevelMap_Export.cs:24-30 | a width by height grid gives width * height tile lines |
| LevelExport.LevelLinesCount | SALevelEditor/LevelMap_Export.cs:12-44 | the file has 6 + width * height + (number of fairies) lines |
| LevelExport.SplitKeyLine | SALevelEditor/LevelMap_Export.cs:17-28 | a `key value` line splits on ' ' into exactly the key and the value |
| LevelExport.SplitPairLine | SALevelEditor/LevelMap_Export.cs:33-41 | a `key a b` line splits on ' ' into exactly the key and the two values |
| LevelExport.KeyedIntOfLine | SALevelEditor/LevelMap_Export.cs:20-28 | the game's reader reads a written `key n` line back as n |
| LevelExport.KeyedPairOfLine | SALevelEditor/LevelMap_Export.cs:33-36 | the game's reader reads a written `key a b` line back as the point (a, b) |
| LevelExport.ZombieEntryOfLine | SALevelEditor/LevelMap_Export.cs:41 | a written `zombie x y` line reads back as one fairy at (x, y) |
| LevelExport.TileLineReads | SALevelEditor/LevelMap_Export.cs:28 | the tile line written for tile y reads back as that tile |
| LevelExport.ColumnReadBack | SALevelEditor/LevelMap_Export.cs:26-29 | the first k written tile lines of a column read back as its first k tiles |
| LevelExport.ColumnOfGrid | SALevelEditor/LevelMap_Export.cs:24-30 | column x of a written grid reads back as that column |
| LevelExport.ColumnsReadBack | SALevelEditor/LevelMap_Export.cs:24-30 | the first k written columns read back as the grid's first k columns |
| LevelExport.TileLinesIndex | SALevelEditor/LevelMap_Export.cs:24-30 | tile (x, y) is written on line x * height + y of the tile lines, so the loops write x-major |
| LevelExport.ColumnsEndFrom | SALevelEditor/LevelMap_Export.cs:24-30 | the columns end the same number of lines after wherever they start |
| LevelExport.TileLineAfterHeader | SALevelEditor/LevelMap_Export.cs:17-30 | a tile line after four header lines sits four lines further on in the file |
| LevelExport.TileAfterHeader | SALevelEditor/LevelMap_Export.cs:17-30 | tile (x, y) sits on line 4 + x * height + y of any file that has the tile lines after four header lines |
| LevelExport.LevelLinesTiles | SALevelEditor/LevelMap_Export.cs:12-30 | every tile of a written level is on its line after the header |
| LevelExport.ZombieLineReads | SALevelEditor/LevelMap_Export.cs:41 | fairy i's written line reads back as fairy i |
| LevelExport.ZombiesReadBack | SALevelEditor/LevelMap_Export.cs:39-42 | the first k written fairy lines read back as the first k fairies |
| LevelExport.Prints | SALevelEditor/LevelMap_Export.cs:17-18 | a whole float of at most seven digits is printed as the 32-bit integer it equals |
| LevelExport.HeaderReadBack | SALevelEditor/LevelMap_Export.cs:17-21 | the four header lines read back as the dimensions, the tile side and the wall height |
| LevelExport.ZombieLinesAt | SALevelEditor/LevelMap_Export.cs:41 | fairy i's line holds its coordinates printed as integers |
| LevelExport.ZombieLineWritten | SALevelEditor/LevelMap_Export.cs:39-42 | fairy i's line is in place in a file ending with the fairy lines |
| LevelExport.ZombieLinesWritten | SALevelEditor/LevelMap_Export.cs:39-42 | every fairy's line is in place in a file ending with the fairy lines |
| LevelExport.ZombieLinesReadBack | SALevelEditor/LevelMap_Export.cs:39-42 | the fairy lines, read to the end of the file, give back the fairies in order |
| LevelExport.ActorsReadBack | SALevelEditor/LevelMap_Export.cs:33-42 | the okuu, goal and zombie lines read back as Okuu's tile, the goal's tile and the fairies in order |
| LevelExport.LevelHeaderReadBack | SALevelEditor/LevelMap_Export.cs:17-21 | a written level's first four lines read back as its header |
| LevelExport.LevelColumnsReadBack | SALevelEditor/LevelMap_Export.cs:24-30 | a written level's tile lines read back as its grid |
| LevelExport.LevelActorsReadBack | SALevelEditor/LevelMap_Export.cs:33-42 | a written level's lines after the tiles read back as its actors |
| LevelExport.LevelRoundTrip | SALevelEditor/LevelMap_Export.cs:12-44 | what the editor writes the game reads back: the dimensions, tile side and wall height, every tile in place, Okuu's and the goal's tile and the fairies in order |
| LevelMaps.Column | SALevelEditor/LevelMap_Export.cs:26-29 | the first n tiles of column x of the tile array, y ascending |
| LevelMaps.Columns | SALevelEditor/LevelMap_Export.cs:24-30 | the first k columns of the tile array, x ascending |
| LevelMaps.GridShape | SALevelEditor/LevelMap_Export.cs:24-30 | the grid read off the tile array is width by height and holds tiles[x, y] at [x][y] |
| LevelMaps.LevelMap.constructor | SALevelEditor/LevelMap.cs:25-32 | a width by height map, every tile 0 except tile (0, 1), which is 1; dimensions and texture match the array |
| LevelMaps.LevelMap.SetRandomTile | SALevelEditor/LevelMap.cs:36-45 | every tile is redrawn as the draw made for it, 0 or 1, and the map keeps its shape |
| LevelMaps.LevelMap.SetTile | SALevelEditor/LevelMap.cs:47-51 | a tile inside the map takes the new value and no other tile changes; a position outside the map changes nothing |
| LevelMaps.LevelMap.ConstructStage | SALevelEditor/LevelMap.cs:53-57 | a new stage over the same tile array with tile side 20 and wall height 50 |
| LevelMaps.LevelMap.ExportToFile | SALevelEditor/LevelMap_Export.cs:12-44 | the lines written are the level file of the map's dimensions, constants, tiles, Okuu's and the goal's tile and fairies, 6 + width * height + (number of fairies) of them |
| LevelMaps.ExportRoundTrip | SALevelEditor/LevelMap_Export.cs:12-44 | the game's reader gives back exactly the map the editor exported |
| LevelMaps.WriteTiles | SALevelEditor/LevelMap_Export.cs:24-30 | the nested loops write the grid's tile lines, x-major |
| LevelMaps.WriteColumn | SALevelEditor/LevelMap_Export.cs:26-29 | the inner loop writes column x's tile lines |
| LevelMaps.WriteZombies | SALevelEditor/LevelMap_Export.cs:39-42 | the foreach writes one `zombie` line per fairy, in list order |
| LevelMaps.NewLevelMap | SALevelEditor/LevelMap.cs:25-32 | a negative size fails with an overflow, a map without a tile (0, 1) fails with an index out of range, and any other size gives a valid map of that size whose tiles are all 0 except tile (0, 1), which is 1, with Okuu and the goal at the origin and no fairies |
| MapTextures.TexelShowsTile | SALevelEditor/MapTexture.cs:36 | a tile's value can be read back from its texel's red channel |
| MapTextures.TexelInjective | SALevelEditor/MapTexture.cs:36 | two tiles have the same texel exactly when they have the same value |
| MapTextures.MapTexture.constructor | SALevelEditor/MapTexture.cs:21-26 | the texture is as wide and high as the tile array, with a zeroed texel per tile |
| MapTextures.MapTexture.SetData | SALevelEditor/MapTexture.cs:28-39 | texel (row j, column i) is the colour of tile (i, j), for every tile |
| MapTextures.MapTexture.SetTextureData | SALevelEditor/MapTexture.cs:41-43 | after the refresh every texel shows its tile's value |
| MeshImporter.FirstHit | Final5625/Meshes/MeshImporter.cs:22-42 | the recursive search, when it finds something, returns a path to a node that satisfies the target |
| MeshImporter.FirstHitIsFirst | Final5625/Meshes/MeshImporter.cs:22-42 | the search returns the first reachable hit in preorder, and nothing exactly when no hit is reachable |
| MeshImporter.FindArmatureSpec | Final5625/Meshes/MeshImporter.cs:22-42 | findArmature returns the first child of the first node named "Armature" that has children, never looking below an "Armature" node, and null exactly when there is none |
| MeshImporter.NodeSet.constructor | Final5625/Meshes/MeshImporter.cs:174 | the set of needed nodes starts empty |
| MeshImporter.NodeSet.Add | Final5625/Meshes/MeshImporter.cs:58-69 | HashSet.Add adds the node and keeps every other element |
| MeshImporter.AddBranchToSet | Final5625/Meshes/MeshImporter.cs:53-76 | returns true exactly when the search finds a node with the bone's name; then the set gains that node and all its ancestors up to the search root, otherwise it is unchanged |
| MeshImporter.AddBranchFindsAnyNamed | Final5625/Meshes/MeshImporter.cs:53-76 | addBranchToSet returns true exactly when some node of the tree has the bone's name |
| MeshImporter.FirstMatchIsOpen | Final5625/Meshes/MeshImporter.cs:56-60 | the shallowest named node on any path is reached by the search, because it stops only at a named node |
| MeshImporter.ConstructArmature | Final5625/Meshes/MeshImporter.cs:127-140 | a bone is built exactly for a needed node, with that node's name and transform (the whole tree is stated by ArmatureHoldsNeeded) |
| MeshImporter.ConstructChildren | Final5625/Meshes/MeshImporter.cs:133-137 | the children that are not needed are dropped, so a bone has at most as many children as its node |
| MeshImporter.ArmatureHoldsNeeded | Final5625/Meshes/MeshImporter.cs:127-161 | over a needed set that holds the armature root and every ancestor of its nodes, the flattened hierarchy has one bone per needed node, in preorder, each with its node's name and transform, so it has exactly as many bones as there are needed nodes |
| MeshImporter.BranchClosed | Final5625/Meshes/MeshImporter.cs:56-75 | the branch added for one matching node holds every ancestor of its nodes and leads only to nodes of the armature |
| MeshImporter.NeededClosed | Final5625/Meshes/MeshImporter.cs:176-182 | the set the importer collects holds every ancestor of its nodes, the armature root once it is not empty, and only nodes of the armature |
| MeshImporter.Preorder | Final5625/Meshes/MeshImporter.cs:151-161 | the flattened hierarchy starts with its root |
| MeshImporter.PlaceChild | Final5625/Meshes/MeshImporter.cs:155-159 | one pass writes child i's hierarchy right after the root and the earlier children's hierarchies, touches no other slot and advances the offset by the number written |
| MeshImporter.PlaceBonesInArray | Final5625/Meshes/MeshImporter.cs:151-161 | the hierarchy is written in preorder into the slots from startIndex on, no other slot changes, and the count returned is the hierarchy's size |
| MeshImporter.BoneDictSpec | Final5625/Meshes/MeshImporter.cs:191-198 | the dictionary is built exactly when the bones' names are distinct; it maps each bone's name to its index and has no other keys |
| MeshImporter.BoneDictStep | Final5625/Meshes/MeshImporter.cs:193-198 | one more pass fails on a duplicate name (Dictionary.Add's exception) and otherwise adds name -> index |
| MeshImporter.BoneDictIndex | Final5625/Meshes/MeshImporter.cs:197 | bone i's name maps to i |
| MeshImporter.BoneDictKey | Final5625/Meshes/MeshImporter.cs:197 | every key is the name of some bone |
| MeshImporter.BoneDictBuilt | Final5625/Meshes/MeshImporter.cs:193-198 | the dictionary is built exactly when the names are distinct |
| MeshImporter.BoneDictNull | Final5625/Meshes/MeshImporter.cs:195 | an empty slot makes reading its name fail |
| MeshImporter.BuildBoneDict | Final5625/Meshes/MeshImporter.cs:191-198 | the loop builds the dictionary of the bone array, or fails with the first error |
| MeshImporter.BoneDictErrorStays | Final5625/Meshes/MeshImporter.cs:193-198 | once the loop has thrown, later slots do not change the outcome |
| MeshImporter.CollectNeededNodes | Final5625/Meshes/MeshImporter.cs:177-182 | the set gains the branches of every bone of every mesh, in order |
| MeshImporter.AddMeshBones | Final5625/Meshes/MeshImporter.cs:178-181 | the set gains the branches of one mesh's bones after those added before |
| MeshImporter.ImportBones | Final5625/Meshes/MeshImporter.cs:171-199 | it fails with a null reference when there is no armature but some mesh has bones, with IndexOutOfRange when no node is needed, and otherwise exactly on a repeated bone name; the hierarchy always has one bone per needed node; on success the root is the hierarchy built over the needed nodes, the array is its preorder, each bone's name maps to its slot, and the dictionary has no other keys |
| VertexWeights.BoneEntries | Final5625/Meshes/MeshImporter.cs:212 | one entry per vertex weight of the bone |
| VertexWeights.Gather | Final5625/Meshes/MeshImporter.cs:203-223 | a successful gathering has one list per vertex of the mesh |
| VertexWeights.GatherSpec | Final5625/Meshes/MeshImporter.cs:210-223 | gathering succeeds exactly when every entry names a bone in the dictionary and a vertex of the mesh, and then each vertex's list holds the influences on it in the order the loops meet them |
| VertexWeights.GatherErrorStays | Final5625/Meshes/MeshImporter.cs:216-220 | the first entry that throws decides the exception of the whole loop |
| VertexWeights.WeightEntriesStep | Final5625/Meshes/MeshImporter.cs:210-212 | one more bone adds its weights after those of the bones before it |
| VertexWeights.WeightEntriesPrefix | Final5625/Meshes/MeshImporter.cs:210-212 | the entries of the first j bones are a prefix of the entries of all bones |
| VertexWeights.Counts | Final5625/Meshes/MeshImporter.cs:236-238 | vertexNumBones[i] is the length of vertex i's list |
| VertexWeights.Concat | Final5625/Meshes/MeshImporter.cs:243-244 | the flat arrays are as long as the sum of the counts (totalVertBonePairs) |
| VertexWeights.ConcatPrefix | Final5625/Meshes/MeshImporter.cs:245-265 | the lists of the first i vertices laid end to end are a prefix of the flat arrays |
| VertexWeights.ConcatSlice | Final5625/Meshes/MeshImporter.cs:233-265 | vertex i's slice of the flat arrays starts at its start offset, ends where vertex i+1's starts and holds exactly vertex i's list |
| VertexWeights.GatherTotal | Final5625/Meshes/MeshImporter.cs:232-243 | every gathered entry lands in exactly one vertex list, so totalVertBonePairs is the number of vertex weights of the mesh |
| VertexWeights.ZeroSum | Final5625/Meshes/MeshImporter.cs:205-209 | empty lists have no pairs in total |
| VertexWeights.SumUpdate | Final5625/Meshes/MeshImporter.cs:220-221 | appending to one list changes the total by the change of that list's count |
| VertexWeights.MaxCountSpec | Final5625/Meshes/MeshImporter.cs:267-274 | maxNumBones bounds every vertex's count and is one of them, or 0 for a mesh without vertices |
| VertexWeights.FillLists | Final5625/Meshes/MeshImporter.cs:210-223 | the nested foreach loops leave each vertex's gathered list in its slot, or return the exception of the first entry naming an unknown bone or a vertex outside the mesh |
| VertexWeights.AddBoneWeights | Final5625/Meshes/MeshImporter.cs:212-222 | one bone's weights appended to the lists as gathering the entries so far plus that bone's would |
| VertexWeights.Offsets | Final5625/Meshes/MeshImporter.cs:228-239 | each vertex's count is its list's length, its start offset is the sum of the counts before it, and the total is the sum of all counts |
| VertexWeights.OffsetStep | Final5625/Meshes/MeshImporter.cs:235-237 | the next vertex starts where this one's list ends |
| VertexWeights.CopyVertex | Final5625/Meshes/MeshImporter.cs:247-264 | after vertex i is copied, the flat arrays agree with the concatenated lists up to where vertex i+1 starts |
| VertexWeights.FillFlat | Final5625/Meshes/MeshImporter.cs:243-265 | the flat arrays hold, position by position, the bone index and weight of the concatenated lists |
| VertexWeights.CopyList | Final5625/Meshes/MeshImporter.cs:255-263 | the paired enumerators write the list from the start offset on, and nothing outside that slice changes |
| VertexWeights.MaxNumBones | Final5625/Meshes/MeshImporter.cs:267-274 | the loop returns the largest count |
| VertexWeights.LayOut | Final5625/Meshes/MeshImporter.cs:228-274 | counts, start offsets, flat arrays and maximum all describe the gathered lists |
| VertexWeights.CollectVertexWeights | Final5625/Meshes/MeshImporter.cs:201-289 | the exception of the first bad entry, or the prefix-offset layout of the gathered lists |
| VertexWeights.LayoutSlices | Final5625/Meshes/MeshImporter.cs:201-289 | stated against the mesh's own bones: vertex v's slice of the flat arrays lists, in insertion order, the bone index and weight of every influence on v, and the arrays hold one pair per vertex weight |
| Okuu.OneInputPerStep | Final5625/Scenes/UtsuhoReiuji.cs:593-648 | setNextState acts on the highest-priority input only: inputs with the same top command and movement give the same result |
| Okuu.ReviveAndKnockout | Final5625/Scenes/UtsuhoReiuji.cs:593-648 | a medical miracle changes only a knocked-out character, back to idle with blinking on; an instant knockout knocks out anyone not already down, blinking off and the KO clip playing |
| Okuu.DamageHandling | Final5625/Scenes/UtsuhoReiuji.cs:673-701 | damage is ignored while uninterruptable, attacking, knocked out or early in a backstep; otherwise Okuu transitions back to moving, aiming or idle with the attack stage kept |
| Okuu.AttackHandling | Final5625/Scenes/UtsuhoReiuji.cs:733-767 | attack out of idle, interruptable or moving; buffer an attack in the second half of a swing before the third; continue the combo from a recovery before the third; fire while aiming; ignore it otherwise |
| Okuu.AttackStages | Final5625/Scenes/UtsuhoReiuji.cs:234-266 | attack plays the current stage's swing (the cheer clip past the third), advances the stage and faces the movement input when there is one; the third swing also moves Okuu; backstep resets the combo |
| Okuu.AnimationEnd | Final5625/Scenes/UtsuhoReiuji.cs:519-575 | at the end of a clip a swing goes on to what was buffered and clears the buffer, a recovery ends the combo in idle, a transition enters its target state, and idle, moving, aiming and knocked out go on unchanged |
| Okuu.CannonAndNoInput | Final5625/Scenes/UtsuhoReiuji.cs:769-787 | cannon input raises the cannon from idle, interruptable or moving and lowers it while aiming; with no input only moving changes, to idle |
| Okuu.MoveSpeedValues | Final5625/Scenes/UtsuhoReiuji.cs:379-403 | the speed is one of the fixed speeds: 0 when standing, the run or walk speed while moving, half of it while transitioning to moving |
| Okuu.InputKeepsStageNonNegative | Final5625/Scenes/UtsuhoReiuji.cs:593-648 | handling an input never makes the attack stage negative |
| Okuu.FinishKeepsStageNonNegative | Final5625/Scenes/UtsuhoReiuji.cs:519-575 | finishing an action never makes the attack stage negative |
| Okuu.AttackStageNonNegative | Final5625/Scenes/UtsuhoReiuji.cs:405-475 | an update never makes the attack stage negative |
| Okuu.AttackStageCanPassThree | Final5625/Scenes/UtsuhoReiuji.cs:234-266 | the attack stage is not bounded by 3: damage during the third recovery keeps stage 3 and the next attack plays the cheer clip at stage 4 |
| Okuu.UtsuhoReiuji.constructor | Final5625/Scenes/UtsuhoReiuji.cs:149-161 | for a model with every clip (allAnimsOK, lines 43-67), Okuu starts idle, running, not ready, stage 0, playing the idle clip, with no input pending |
| Okuu.NewUtsuhoReiuji | Final5625/Scenes/UtsuhoReiuji.cs:149-161 | `new UtsuhoReiuji` as a result: it throws exactly when the model lacks one of her clips, and otherwise gives the constructor's initial state |
| Okuu.UtsuhoReiuji.SwitchAnimationSmooth | Final5625/Scenes/UtsuhoReiuji.cs:202-226 | the named clip starts from time 0 and nothing else changes |
| Okuu.UtsuhoReiuji.ReadyOrIdleMethod | Final5625/Scenes/UtsuhoReiuji.cs:212-226 | Okuu becomes idle, playing the ready or the idle clip by readiness |
| Okuu.UtsuhoReiuji.RunOrWalkMethod | Final5625/Scenes/UtsuhoReiuji.cs:196-210 | Okuu becomes moving, playing the run or the walk clip by the running flag |
| Okuu.UtsuhoReiuji.CheerMethod | Final5625/Scenes/UtsuhoReiuji.cs:228-232 | Okuu becomes interruptable, playing the cheer clip |
| Okuu.UtsuhoReiuji.AttackMethod | Final5625/Scenes/UtsuhoReiuji.cs:234-266 | Okuu attacks with the current stage's swing, facing the movement input, and the stage advances by one |
| Okuu.UtsuhoReiuji.AttackRecoverMethod | Final5625/Scenes/UtsuhoReiuji.cs:268-288 | Okuu recovers, playing the recovery clip of the stage just swung |
| Okuu.UtsuhoReiuji.BackstepMethod | Final5625/Scenes/UtsuhoReiuji.cs:290-295 | Okuu backsteps and the combo resets to stage 0 |
| Okuu.UtsuhoReiuji.StartAimingMethod | Final5625/Scenes/UtsuhoReiuji.cs:297-304 | Okuu transitions to aiming while the raise-cannon clip plays |
| Okuu.UtsuhoReiuji.AimMethod | Final5625/Scenes/UtsuhoReiuji.cs:306-311 | Okuu aims, playing the aiming clip |
| Okuu.UtsuhoReiuji.FireMethod | Final5625/Scenes/UtsuhoReiuji.cs:313-319 | Okuu fires, uninterruptable, and goes back to aiming afterwards |
| Okuu.UtsuhoReiuji.StopAimingMethod | Final5625/Scenes/UtsuhoReiuji.cs:321-327 | Okuu transitions to idle while the lower-cannon clip plays |
| Okuu.UtsuhoReiuji.BeHurtMethod | Final5625/Scenes/UtsuhoReiuji.cs:329-354 | the hurt clip for the current state plays and Okuu returns to moving or aiming if that was the state, else to idle |
| Okuu.UtsuhoReiuji.KnockedOutMethod | Final5625/Scenes/UtsuhoReiuji.cs:356-365 | Okuu is knocked out with blinking stopped |
| Okuu.UtsuhoReiuji.TransitionMethod | Final5625/Scenes/UtsuhoReiuji.cs:495-514 | Okuu enters the state recorded for after the transition, which is then reset to idle |
| Okuu.UtsuhoReiuji.FinishActionMethod | Final5625/Scenes/UtsuhoReiuji.cs:519-575 | the action whose clip ended finishes as AnimationEnd states, and the pending input stays |
| Okuu.UtsuhoReiuji.AdvanceCurrentStateMethod | Final5625/Scenes/UtsuhoReiuji.cs:519-575 | the clip time advances and, when the clip ended, the current action finishes |
| Okuu.UtsuhoReiuji.SetNextStateMethod | Final5625/Scenes/UtsuhoReiuji.cs:593-648 | the highest-priority pending input is handled and the flag says whether the state changed |
| Okuu.UtsuhoReiuji.ProcessDamageTakenMethod | Final5625/Scenes/UtsuhoReiuji.cs:673-701 | damage is handled as DamageHandling states |
| Okuu.UtsuhoReiuji.ProcessBackstepInputMethod | Final5625/Scenes/UtsuhoReiuji.cs:703-727 | a backstep starts from idle, interruptable, moving, recovering or aiming and is buffered in the second half of a swing |
| Okuu.UtsuhoReiuji.ProcessAttackInputMethod | Final5625/Scenes/UtsuhoReiuji.cs:733-767 | attack input is handled as AttackHandling states |
| Okuu.UtsuhoReiuji.ProcessCannonInputMethod | Final5625/Scenes/UtsuhoReiuji.cs:769-787 | the cannon is raised from idle, interruptable or moving and lowered while aiming |
| Okuu.UtsuhoReiuji.ProcessMovementInputMethod | Final5625/Scenes/UtsuhoReiuji.cs:792-813 | movement starts Okuu moving from idle or interruptable and turns Okuu while moving, facing the input |
| Okuu.UtsuhoReiuji.ProcessCheerInputMethod | Final5625/Scenes/UtsuhoReiuji.cs:819-833 | Okuu cheers out of idle or interruptable |
| Okuu.UtsuhoReiuji.ProcessIdleInputMethod | Final5625/Scenes/UtsuhoReiuji.cs:839-861 | with no input a moving character stops, others go on |
| Okuu.UtsuhoReiuji.ClearInputFlags | Final5625/Scenes/UtsuhoReiuji.cs:367-377 | every input flag is cleared and the movement input is zero; the state is unchanged |
| Okuu.UtsuhoReiuji.Update | Final5625/Scenes/UtsuhoReiuji.cs:405-475 | one update is one step of the state machine on the pending input, after which the input is cleared |
| Okuu.UtsuhoReiuji.GetMoveSpeed | Final5625/Scenes/UtsuhoReiuji.cs:379-403 | the speed is the move speed of the current state, as MoveSpeedValues bounds it |
| Okuu.UtsuhoReiuji.ToggleRunWalkMethod | Final5625/Scenes/UtsuhoReiuji.cs:165-176 | the running flag takes the new value; a moving character switches between run and walk clips; no change when the flag is already set |
| Okuu.UtsuhoReiuji.ToggleReadyIdleMethod | Final5625/Scenes/UtsuhoReiuji.cs:178-194 | readiness takes the new value; an idle character switches between ready and idle clips; no change when it is already set |
| Okuu.UtsuhoReiuji.InputCheer | Final5625/Scenes/UtsuhoReiuji.cs:863-866 | only the cheer flag is set |
| Okuu.UtsuhoReiuji.InputMove | Final5625/Scenes/UtsuhoReiuji.cs:868-871 | only the movement input is set |
| Okuu.UtsuhoReiuji.InputAttack | Final5625/Scenes/UtsuhoReiuji.cs:873-876 | only the attack flag is set |
| Okuu.UtsuhoReiuji.InputBackstep | Final5625/Scenes/UtsuhoReiuji.cs:878-881 | only the backstep flag is set |
| Okuu.UtsuhoReiuji.InputCannon | Final5625/Scenes/UtsuhoReiuji.cs:883-886 | only the cannon flag is set |
| Okuu.UtsuhoReiuji.GetHurt | Final5625/Scenes/UtsuhoReiuji.cs:888-892 | only the damage flag is set; the attack power is not used |
| Okuu.UtsuhoReiuji.InstantKnockout | Final5625/Scenes/UtsuhoReiuji.cs:894-897 | only the instant-knockout flag is set |
| Okuu.UtsuhoReiuji.MedicalMiracle | Final5625/Scenes/UtsuhoReiuji.cs:899-902 | only the revival flag is set |
| Zombie.StepWithinRender | Final5625/Scenes/ZombieFairy.cs:266-327 | within the render distance an update counts knockout time, then decides, then turns towards the target along the normalised offset |
| Zombie.ChaseByDistance | Final5625/Scenes/ZombieFairy.cs:355-377 | farther than 10 it moves to the player, in (5, 10] it shoots at the player, in (2, 5] it closes in, within 2 it swings |
| Zombie.FarAwayUnchanged | Final5625/Scenes/ZombieFairy.cs:266-327 | a fairy beyond the render distance does not change on update |
| Zombie.UpdatePriority | Final5625/Scenes/ZombieFairy.cs:266-327 | a fairy out of leash range walks back and forgets the player; else a pending hit is handled first (knockout at no hit points, a stagger unless already down); else it acts on the player if it can see the player, and idles if not |
| Zombie.ActiveBehaviour | Final5625/Scenes/ZombieFairy.cs:384-440 | the end of a stagger adds one second of waiting with the hit stage cleared; an idle fairy waits that out before chasing; a knocked-out fairy only advances its clip |
| Zombie.LaunchOnCrossing | Final5625/Scenes/ZombieFairy.cs:384-440 | a shooting fairy launches exactly on the update whose clip time crosses the release time, with radius 0.5 and 20 times its facing as velocity (speed 20 when the facing is a unit vector, which FacingStaysUnit keeps); otherwise the pending projectile is unchanged |
| Zombie.DecideKeepsFacing | Final5625/Scenes/ZombieFairy.cs:266-327 | the decision part of an update never turns the fairy; only setVelocityDir does |
| Zombie.FacingStaysUnit | Final5625/Scenes/ZombieFairy.cs:236-250 | with Vector3.Normalize given as a function that maps a non-zero vector to the unit vector along it, the facing stays a unit vector from update to update, and after an update it points at the target whenever the fairy is away from it |
| Zombie.IdleBehaviour | Final5625/Scenes/ZombieFairy.cs:447-479 | a moving fairy stops once within 0.5 of its target or when its timer runs out; a knocked-out fairy only advances its clip; other actions return to idle when their clip ends; an idle fairy counts its timer down |
| Zombie.HitThenUpdate | Final5625/Scenes/ZombieFairy.cs:481-488 | a hit that takes the last hit points knocks the fairy out on the next update, wherever it is within its leash |
| Zombie.SpeedValues | Final5625/Scenes/ZombieFairy.cs:220-231 | the speed is 3 while moving, -1.5 while staggering and 0 otherwise |
| Zombie.ZombieFairy.constructor | Final5625/Scenes/ZombieFairy.cs:92-105 | for a mesh with all six clips, the fairy starts idle at its location, leashed there, facing forward, unaware, with 10 hit points and no projectile |
| Zombie.AllAnimsOKIsEveryClip | Final5625/Scenes/ZombieFairy.cs:110-118 | the animation check passes exactly when the mesh has the name of every clip the fairy can switch to |
| Zombie.NewZombieFairy | Final5625/Scenes/ZombieFairy.cs:92-105 | the constructor throws the missing-animations exception exactly when the mesh lacks one of the six clips; otherwise the fairy starts as the constructor sets it up |
| Zombie.ZombieFairy.UpdateOkuuLocation | Final5625/Scenes/ZombieFairy.cs:190-194 | only the player's location and the squared distance to the player change |
| Zombie.ZombieFairy.GoIdleMethod | Final5625/Scenes/ZombieFairy.cs:120-125 | it goes idle with a new idle time |
| Zombie.ZombieFairy.MoveMethod | Final5625/Scenes/ZombieFairy.cs:127-133 | it moves to the target with a new idle time |
| Zombie.ZombieFairy.AttackMethod | Final5625/Scenes/ZombieFairy.cs:135-140 | it swings, restarting a swing already in progress |
| Zombie.ZombieFairy.ShootMethod | Final5625/Scenes/ZombieFairy.cs:142-149 | it shoots at the target, restarting a shot already in progress |
| Zombie.ZombieFairy.BeHurtMethod | Final5625/Scenes/ZombieFairy.cs:171-177 | it staggers, restarting a stagger already in progress |
| Zombie.ZombieFairy.KnockedOutMethod | Final5625/Scenes/ZombieFairy.cs:179-186 | it is knocked out, playing the KO clip |
| Zombie.ZombieFairy.GoAfterOkuuMethod | Final5625/Scenes/ZombieFairy.cs:355-377 | it chases, shoots or swings by distance as ChaseByDistance states |
| Zombie.ZombieFairy.RandomIdleActionMethod | Final5625/Scenes/ZombieFairy.cs:339-353 | it stays idle on a draw above 0.7 and otherwise wanders to a point near its leash location |
| Zombie.ZombieFairy.GetProjectile | Final5625/Scenes/ZombieFairy.cs:159-169 | it reports whether a projectile was pending, hands it out and clears it |
| Zombie.ZombieFairy.AdvanceStateActiveMethod | Final5625/Scenes/ZombieFairy.cs:384-440 | active behaviour as ActiveBehaviour and LaunchOnCrossing state |
| Zombie.ZombieFairy.AdvanceStateIdleMethod | Final5625/Scenes/ZombieFairy.cs:447-479 | idle behaviour as IdleBehaviour states |
| Zombie.ZombieFairy.DecideMethod | Final5625/Scenes/ZombieFairy.cs:274-297 | the decision part of update, in the priority UpdatePriority states |
| Zombie.ZombieFairy.Update | Final5625/Scenes/ZombieFairy.cs:266-327 | one update as StepWithinRender and FarAwayUnchanged state |
| Zombie.ZombieFairy.CountKnockoutTime | Final5625/Scenes/ZombieFairy.cs:270-273 | a knocked-out fairy adds the frame time to the time it has been down; others are unchanged |
| Zombie.ZombieFairy.SetVelocityDirMethod | Final5625/Scenes/ZombieFairy.cs:236-250 | unless it is already at its target, it faces along the normalised offset to the target |
| Zombie.ZombieFairy.RegisterHitMethod | Final5625/Scenes/ZombieFairy.cs:481-488 | the hit points drop by the hit's stage, and the fairy becomes aware with a hit pending |
| Zombie.ZombieFairy.GetMoveSpeed | Final5625/Scenes/ZombieFairy.cs:220-231 | the speed of its state, as SpeedValues states |
| Zombie.ZombieFairy.TimeKOed | Final5625/Scenes/ZombieFairy.cs:196-199 | the time it has been knocked out |
| Zombie.ZombieFairy.LastHitStage | Final5625/Scenes/ZombieFairy.cs:490-493 | the stage of the last hit |
| Zombie.ProjectileHandedOutOnce | Final5625/Scenes/ZombieFairy.cs:159-169 | a pending projectile is handed out once: an immediate second request gets nothing |
| Stages.FloorTile.ToQuad | Final5625/Scenes/Stages/Stage_Constructor.cs:29-95 | a floor quad has four corners, four normals, four texture coordinates, four tangents and two triangles over corners 0 to 3 |
| Stages.FloorCorners | Final5625/Scenes/Stages/Stage_Constructor.cs:42-47 | the floor quad's corners are the tile square's lower left, lower right, upper left and upper right corners at height 0 |
| Stages.FloorFacesUp | Final5625/Scenes/Stages/Stage_Constructor.cs:42-47 | the floor's first triangle winds counter-clockwise seen from above, and twice its area is the tile's area |
| Stages.WallTile.ToQuad | Final5625/Scenes/Stages/Stage_Constructor.cs:166-220 | a wall quad has four corners, normals, texture coordinates and tangents and two triangles over corners 0 to 3 |
| Stages.WallAxes | Final5625/Scenes/Stages/Stage_Constructor.cs:117-133 | per side, the wall's normal points from the empty tile to the floor tile and its right vector is UP x normal, both unit axis vectors |
| Stages.UprightFaceNormal | Final5625/Scenes/Stages/Stage_Constructor.cs:170-180 | the winding normal of a quad spanned by a horizontal right vector and UP is horizontal, perpendicular to the right vector |
| Stages.WallFacing | Final5625/Scenes/Stages/Stage_Constructor.cs:117-133 | every wall's first triangle faces the floor tile it bounds |
| Stages.WallFrameHolds | Final5625/Scenes/Stages/Stage_Constructor.cs:126-129 | the normal and the right vector of a wall are perpendicular horizontal unit axis vectors |
| Stages.NorthWallEdge | Final5625/Scenes/Stages/Stage_Constructor.cs:144-147 | a north wall starts at the floor's upper-left corner and runs east along the shared edge |
| Stages.SouthWallEdge | Final5625/Scenes/Stages/Stage_Constructor.cs:149-152 | a south wall starts at the floor's lower-right corner and runs west along the shared edge |
| Stages.EastWallEdge | Final5625/Scenes/Stages/Stage_Constructor.cs:154-157 | an east wall starts at the floor's upper-right corner and runs south along the shared edge |
| Stages.WestWallEdge | Final5625/Scenes/Stages/Stage_Constructor.cs:159-162 | a west wall starts at the floor's lower-left corner and runs north along the shared edge |
| Stages.WallGeometry | Final5625/Scenes/Stages/Stage_Constructor.cs:117-220 | every wall between adjacent tiles stands on their shared edge, faces the floor tile and has a unit normal and right vector |
| Stages.FloorBeforeSound | Final5625/Scenes/Stages/Stage_Constructor.cs:249-256 | every floor collected before tile (x, y) is the floor of a non-empty tile scanned before it |
| Stages.FloorBeforeIndex | Final5625/Scenes/Stages/Stage_Constructor.cs:249-256 | every non-empty tile scanned before (x, y) has its floor among those collected |
| Stages.FloorsBeforeOrdered | Final5625/Scenes/Stages/Stage_Constructor.cs:249-256 | the floors are collected strictly in x-major scan order |
| Stages.FloorsExact | Final5625/Scenes/Stages/Stage_Constructor.cs:249-286 | the floor list holds exactly one floor per non-empty tile, with the tile's value as material, in scan order |
| Stages.CellWallsExact | Final5625/Scenes/Stages/Stage_Constructor.cs:260-283 | a tile's walls are exactly those towards an empty or out-of-grid neighbour, north, south, east and west |
| Stages.CellWallIndex | Final5625/Scenes/Stages/Stage_Constructor.cs:260-283 | each such wall has its place among the tile's walls |
| Stages.CellWallSound | Final5625/Scenes/Stages/Stage_Constructor.cs:260-283 | every wall of a tile stands between that non-empty tile and an empty or out-of-grid neighbour |
| Stages.WallsBeforeLeft | Final5625/Scenes/Stages/Stage_Constructor.cs:251-285 | scanning one more tile keeps the walls collected so far in place |
| Stages.WallsBeforeRight | Final5625/Scenes/Stages/Stage_Constructor.cs:251-285 | the walls of the tile just scanned come after those collected before |
| Stages.WallBeforeCell | Final5625/Scenes/Stages/Stage_Constructor.cs:249-286 | every wall collected before (x, y) is a wall of a tile scanned before it |
| Stages.WallBeforeIndex | Final5625/Scenes/Stages/Stage_Constructor.cs:249-286 | every wall of a tile scanned before (x, y) is among those collected |
| Stages.WallsExact | Final5625/Scenes/Stages/Stage_Constructor.cs:249-286 | the wall list holds exactly the walls between a non-empty tile and an adjacent empty or out-of-grid tile, each with the floor tile's material |
| Stages.CollectTiles | Final5625/Scenes/Stages/Stage_Constructor.cs:249-286 | the nested loops collect the stage's floors and walls |
| Stages.ScanColumn | Final5625/Scenes/Stages/Stage_Constructor.cs:251-285 | the inner loop extends the lists by the floors and walls of column x |
| Stages.ScanCell | Final5625/Scenes/Stages/Stage_Constructor.cs:253-284 | one tile gives a floor when non-empty and a wall towards each empty or out-of-grid neighbour |
| Stages.Offset | Final5625/Scenes/Stages/Stage_Constructor.cs:338-371 | shifting the face indices keeps their number |
| Stages.AddQuad | Final5625/Scenes/Stages/Stage_Constructor.cs:320-339 | appending a quad keeps a collection of whole quads whole, and the new face indices point at the new vertices |
| Stages.FloorQuads | Final5625/Scenes/Stages/Stage_Constructor.cs:312-340 | one quad per floor, tagged with its material |
| Stages.WallQuads | Final5625/Scenes/Stages/Stage_Constructor.cs:343-373 | one quad per wall, tagged with its material |
| Stages.Insert | Final5625/Scenes/Stages/Stage_Constructor.cs:314-319 | adding a quad keeps the key list and the dictionary in step, creating a material's collection on its first quad |
| Stages.Group | Final5625/Scenes/Stages/Stage_Constructor.cs:309-373 | the grouping's key list and dictionary stay in step |
| Stages.GroupFacts | Final5625/Scenes/Stages/Stage_Constructor.cs:309-373 | there is one collection per distinct material, holding exactly that material's quads with in-range face indices, and every material is listed once |
| Stages.GroupKeys | Final5625/Scenes/Stages/Stage_Constructor.cs:309-373 | the materials are listed once each, and exactly the materials of some quad |
| Stages.GroupCounts | Final5625/Scenes/Stages/Stage_Constructor.cs:320-339 | each material's collection holds exactly as many quads as carry that material |
| Stages.InsertQuad | Final5625/Scenes/Stages/Stage_Constructor.cs:314-339 | TryGetValue, creating the missing collection, then the two copy loops add one quad to its material's collection |
| Stages.StageQuads | Final5625/Scenes/Stages/Stage_Constructor.cs:312-373 | all floors then all walls, each a well-formed quad |
| Stages.GroupByMaterial | Final5625/Scenes/Stages/Stage_Constructor.cs:309-373 | the two foreach loops group all floors, then all walls, by material |
| Stages.GroupFloors | Final5625/Scenes/Stages/Stage_Constructor.cs:312-340 | the floor loop groups the floors, starting from no materials |
| Stages.GroupWalls | Final5625/Scenes/Stages/Stage_Constructor.cs:343-373 | the wall loop continues the floors' grouping with the walls |
| Stages.GroupNextWall | Final5625/Scenes/Stages/Stage_Constructor.cs:343-373 | one more wall is one more insertion into the grouping |
| Stages.NodesOf | Final5625/Scenes/Stages/Stage_Constructor.cs:377-384 | one stage node per listed material |
| Stages.StageGeometry | Final5625/Scenes/Stages/Stage_Constructor.cs:241-385 | the grouped geometry of the stage keeps its key list and dictionary in step |
| Stages.MaterialsAreTileValues | Final5625/Scenes/Stages/Stage_Constructor.cs:249-373 | the materials of the stage are exactly the values of its non-empty tiles |
| Stages.MaterialOfQuad | Final5625/Scenes/Stages/Stage_Constructor.cs:256-282 | every quad of the stage carries the value of a non-empty tile |
| Stages.TileValueHasFloor | Final5625/Scenes/Stages/Stage_Constructor.cs:253-256 | every non-empty tile value is the material of some floor |
| Stages.StageElementsWellFormed | Final5625/Scenes/Stages/Stage_Constructor.cs:377-384 | setUpStage yields one node per distinct material, each with well-formed geometry and the stage material |
| Stages.NodesWellFormed | Final5625/Scenes/Stages/Stage.cs:33-43 | every node made from a grouped collection has well-formed geometry and the stage's Lambertian material |
| Stages.Stage.constructor | Final5625/Scenes/Stages/Stage.cs:19-31 | the stage keeps the tile array, its extents as width and height, the nodes of setUpStage and identity transforms |
| Stages.Stage.Update | Final5625/Scenes/Stages/Stage.cs:45-48 | an update changes nothing |
| Stages.SetUpStage | Final5625/Scenes/Stages/Stage_Constructor.cs:241-385 | the nodes built are those of the stage's grouped geometry |
| StageImporter.Pieces | Final5625/Scenes/Stages/StageImporter.cs:31 | ReadLine returns null past the end of the file, so splitting it fails with a null reference exactly there; a line read splits into at least one piece |
| StageImporter.IntPiece | Final5625/Scenes/Stages/StageImporter.cs:33 | piece k parses as an Int32, or fails with an index out of range when the line is too short and a format error when the piece is not an Int32 |
| StageImporter.KeyedInt | Final5625/Scenes/Stages/StageImporter.cs:31-35 | a `key n` line gives a 32-bit n after the right key; a wrong key is a format error and a missing line a null reference |
| StageImporter.KeyedPair | Final5625/Scenes/Stages/StageImporter.cs:72-78 | a `key x y` line gives a point of two 32-bit integers after the right key; a missing line is a null reference |
| StageImporter.ParseColumn | Final5625/Scenes/Stages/StageImporter.cs:60-67 | n tile lines read in order give n tiles |
| StageImporter.ColumnStep | Final5625/Scenes/Stages/StageImporter.cs:60-67 | one more tile line appends its tile or fails with its error |
| StageImporter.ColumnErrorStays | Final5625/Scenes/Stages/StageImporter.cs:60-67 | once a tile line has thrown, more lines do not change the error |
| StageImporter.ColumnsEnd | Final5625/Scenes/Stages/StageImporter.cs:58-68 | the columns end at or after where they start |
| StageImporter.ColumnsEndValue | Final5625/Scenes/Stages/StageImporter.cs:58-68 | w columns of h tile lines end w * h lines after their start |
| StageImporter.ParseColumns | Final5625/Scenes/Stages/StageImporter.cs:58-68 | w columns read in order give a w by h grid |
| StageImporter.ColumnsStep | Final5625/Scenes/Stages/StageImporter.cs:58-68 | one more column appends its tiles or fails with its error |
| StageImporter.ColumnsErrorStays | Final5625/Scenes/Stages/StageImporter.cs:58-68 | once a column has thrown, more columns do not change the error |
| StageImporter.ZombieLine | Final5625/Scenes/Stages/StageImporter.cs:95-98 | a fairy line gives the point of its two floats |
| StageImporter.ZombieEntry | Final5625/Scenes/Stages/StageImporter.cs:93-98 | a line whose first piece is not `zombie` adds nothing; a `zombie` line adds at most one fairy |
| StageImporter.ZombiesStep | Final5625/Scenes/Stages/StageImporter.cs:91-99 | one more line appends what it adds or fails with its error |
| StageImporter.ZombiesErrorStay | Final5625/Scenes/Stages/StageImporter.cs:91-99 | once a fairy line has thrown, later lines do not change the error |
| StageImporter.ParseHeader | Final5625/Scenes/Stages/StageImporter.cs:30-54 | a header read in full has four lines keyed width, height, tileSideLength and wallHeight |
| StageImporter.ParseActors | Final5625/Scenes/Stages/StageImporter.cs:72-99 | the okuu and goal lines must both be present; a file ending before the okuu line is a null reference |
| StageImporter.ParseLevel | Final5625/Scenes/Stages/StageImporter.cs:24-105 | a level read in full has a tile grid of its declared width and height |
| StageImporter.ParsedLevelShape | Final5625/Scenes/Stages/StageImporter.cs:24-105 | a level read in full has its header keys in order and room in the file for all its tiles and the okuu and goal lines |
| StageImporter.TruncatedFileFails | Final5625/Scenes/Stages/StageImporter.cs:72-86 | a file cut short before its goal line fails with a null reference |
| StageImporter.TruncatedAfterOkuu | Final5625/Scenes/Stages/StageImporter.cs:80-83 | a file that ends right after the okuu line fails with a null reference |
| StageImporter.HeaderPrefix | Final5625/Scenes/Stages/StageImporter.cs:30-54 | the header reads the same from any prefix of the file that holds it |
| StageImporter.KeyedIntPrefix | Final5625/Scenes/Stages/StageImporter.cs:31-35 | a keyed line reads the same from any prefix of the file that holds it |
| StageImporter.KeyedPairPrefix | Final5625/Scenes/Stages/StageImporter.cs:72-78 | a keyed pair line reads the same from any prefix of the file that holds it |
| StageImporter.ColumnPrefix | Final5625/Scenes/Stages/StageImporter.cs:60-67 | a column reads the same from any prefix of the file that holds it |
| StageImporter.ColumnsPrefix | Final5625/Scenes/Stages/StageImporter.cs:58-68 | the grid reads the same from any prefix of the file that holds it |
| StageImporter.FilledExtend | Final5625/Scenes/Stages/StageImporter.cs:66 | storing the tiles of one more column extends the filled part of the tile array |
| StageImporter.ReadColumn | Final5625/Scenes/Stages/StageImporter.cs:60-67 | the inner loop stores column x as it reads it, or stops with the error of the column's first bad line |
| StageImporter.ReadNextColumn | Final5625/Scenes/Stages/StageImporter.cs:58-68 | one pass of the outer loop reads column x; an error here is the error of the whole grid |
| StageImporter.ReadTiles | Final5625/Scenes/Stages/StageImporter.cs:56-70 | the nested loops fill the tile array with the grid, or stop with the grid's first error |
| StageImporter.ReadZombies | Final5625/Scenes/Stages/StageImporter.cs:88-101 | the while loop collects the fairies of the remaining lines, or stops with the first error |
| StageImporter.ImportStageFromFile | Final5625/Scenes/Stages/StageImporter.cs:24-105 | the import fails exactly when the file is malformed, with the exception its first bad line raises, and otherwise returns the level the file describes |
| StageWorld.SpanMonotone | Final5625/Scenes/Stages/StageImporter.cs:113-126 | scaling by a positive tile side keeps the order of tile coordinates |
| StageWorld.SpanStrict | Final5625/Scenes/Stages/StageImporter.cs:113-126 | scaling by a positive tile side keeps strict order |
| StageWorld.SpanWithin | Final5625/Scenes/Stages/StageImporter.cs:157 | a scaled coordinate lies between its tile's near edge and the next tile's, scaled alike |
| StageWorld.TileCentreOnTile | Final5625/Scenes/Stages/StageImporter.cs:125-126 | the centre of a tile, where the goal flag and (as intended) Okuu are placed, lies on that tile |
| StageWorld.OkuuAsWrittenOnTileIff | Final5625/Scenes/Stages/StageImporter.cs:113-114 | as written, Okuu is placed on the tile named in the level file exactly when that tile's two coordinates are equal |
| StageWorld.OkuuWorldPositionAsWritten | Final5625/Scenes/Stages/StageImporter.cs:113-114 | as written, Okuu's world x and y are equal, since both come from the column coordinate, and she stands at height 0 |
| StageWorld.OkuuAsWrittenOffTile | Final5625/Scenes/Stages/StageImporter.cs:113-114 | `okuu 0 1` with tile side 20 puts Okuu at (10, 10), on tile (0, 0) instead of tile (0, 1) |
| StageWorld.ZombieOnItsTile | Final5625/Scenes/Stages/StageImporter.cs:157 | a fairy stands on the tile its position falls in |
| StageWorld.MakeStageWorld | Final5625/Scenes/Stages/StageImporter.cs:107-164 | Okuu, placed with the y coordinate corrected to the level file's row, and the goal flag stand on the centres of their tiles, six hitboxes run from the arm's start to its end a fifth apart, and there is one fairy per listed position, in order, at that position scaled by the tile side |
| StageWorld.ArmHitboxes | Final5625/Scenes/Stages/StageImporter.cs:133-140 | the six hitboxes start and end on the arm's ends and are a fifth of the arm apart |
| StageWorld.LerpStep | Final5625/Scenes/Stages/StageImporter.cs:138 | moving the interpolation parameter by d moves the point by d times the segment |
| StageWorld.LerpFifths | Final5625/Scenes/Stages/StageImporter.cs:138 | points at consecutive fifths of the arm are a fifth of it apart |
| StageWorld.LerpEnds | Final5625/Scenes/Stages/StageImporter.cs:138 | interpolating by 0 gives the start and by 1 the end |
| Particles.Advanced | Final5625/ParticleSystem.cs:155-158 | one frame of dt: gravity lowers the vertical velocity first, the position moves by the new velocity, the particle turns by its angular velocity and ages by dt; nothing else about it changes |
| Particles.WeightlessFramesCompose | Final5625/ParticleSystem.cs:155-158 | without gravity two frames of a and b are one frame of a + b |
| Particles.Survivors | Final5625/ParticleSystem.cs:152-166 | an update never grows the list and keeps only particles whose life is still positive |
| Particles.SurvivorsAppend | Final5625/ParticleSystem.cs:152-166 | updating a list in two pieces is updating each piece: the survivors keep their relative order |
| Particles.SurvivorsMembers | Final5625/ParticleSystem.cs:152-166 | a particle is in the updated list exactly when it is the advanced form of an old particle and is still alive |
| Particles.NoDeathsKeepsAll | Final5625/ParticleSystem.cs:161-164 | when no particle's life runs out, none is removed: the list is every particle advanced, in order |
| Particles.SpawnAllShape | Final5625/ParticleSystem.cs:143-147 | n spawns add n particles up to the cap of 100000 and no more; the old particles stay, in order, at the back; and with room left the newest spawn is at the front |
| Particles.NextHead | Final5625/ParticleSystem.cs:239 | the ring-buffer head stays one of the three slots |
| Particles.ModThreeStep | Final5625/ParticleSystem.cs:239 | stepping the head and reducing mod 3 is the same as reducing the count once |
| Particles.HeadAfterCycles | Final5625/ParticleSystem.cs:239 | from a valid slot, n renders land on slot (h + n) mod 3, visiting the three slots in turn |
| Particles.Integrate | Final5625/ParticleSystem.cs:155-158 | the field-by-field updates of one particle give its advanced form |
| Particles.ParticleSystem.constructor | Final5625/ParticleSystem.cs:59-70 | no particles and the head at slot 0 |
| Particles.ParticleSystem.SpawnParticle | Final5625/ParticleSystem.cs:143-147 | the particle is added at the front exactly when fewer than 100000 are alive, so the cap is never exceeded; the head does not move |
| Particles.ParticleSystem.Update | Final5625/ParticleSystem.cs:149-167 | every particle advanced by dt, exactly those whose life has run out removed, the order kept and nothing added |
| Particles.ParticleSystem.AdvanceRingBuffer | Final5625/ParticleSystem.cs:238-239 | the head moves to the next of the three slots and the particles are untouched |
| ParticleEmitters.Drain | Final5625/Scenes/ParticleEmitter.cs:71-75 | the spawn loop leaves less than one particle owed, takes exactly the cost of its spawns, and spawns nothing exactly when less than one was owed |
| ParticleEmitters.DrainByOneIsFloor | Final5625/Scenes/ParticleEmitter.cs:70-75 | one unit per spawn spawns the whole part of what is owed and keeps the fraction |
| ParticleEmitters.DrainByTwoHalves | Final5625/Scenes/ExplosionEmitter.cs:56-60 | two units per spawn spawn floor((e + 1) / 2) particles and leave between -1 and 1 owed |
| ParticleEmitters.ParticleEmitter.constructor | Final5625/Scenes/ParticleEmitter.cs:44-47 | the given position and rate, nothing owed, scale factor 1 and a particle rise speed of 2 |
| ParticleEmitters.ParticleEmitter.WithScale | Final5625/Scenes/ParticleEmitter.cs:37-42 | the given position, rate and scale factor, nothing owed |
| ParticleEmitters.ParticleEmitter.Update | Final5625/Scenes/ParticleEmitter.cs:66-76 | a frame of dt owes rate times dt more particles; the loop spawns one per whole particle owed, in the order they are generated, leaves less than one owed, and moves nothing else |
| ExplosionEmitters.VelocitySign | Final5625/Scenes/ExplosionEmitter.cs:23-26 | the speed scale 20 t^2 is never negative and is zero only at t = 0 |
| ExplosionEmitters.VelocityPositive | Final5625/Scenes/ExplosionEmitter.cs:23-26 | the speed scale is positive away from t = 0 |
| ExplosionEmitters.VelocityMonotone | Final5625/Scenes/ExplosionEmitter.cs:23-26 | the speed scale grows with the factor on [0, 1] |
| ExplosionEmitters.ExplosionSlowsDown | Final5625/Scenes/ExplosionEmitter.cs:29-39 | over an explosion of positive duration the particles' speed scale starts at 20, falls as time passes and reaches 0 at the end |
| ExplosionEmitters.ExplosionParticle | Final5625/Scenes/ExplosionEmitter.cs:27-50 | an explosion particle lives 3 seconds, floats without gravity or spin on texture layer 0, has radius min(1, 5 times the scale), and flies along its drawn direction at the explosion's speed scale times its jitter |
| ExplosionEmitters.ExplosionEmitter.constructor | Final5625/Scenes/ExplosionEmitter.cs:16-21 | for a non-zero duration, the given place, rate, scale and duration, with nothing owed and nothing elapsed |
| ExplosionEmitters.ExplosionEmitter.GenerateParticle | Final5625/Scenes/ExplosionEmitter.cs:27-50 | the particle for the current factor, and one more unit taken from what is owed |
| ExplosionEmitters.ExplosionEmitter.SpawnOwed | Final5625/Scenes/ExplosionEmitter.cs:56-60 | each spawn takes two units, one in the loop and one in generateParticle, and the spawned particles are the explosion particles of the next draws, newest at the front |
| ExplosionEmitters.ExplosionEmitter.Update | Final5625/Scenes/ParticleEmitter.cs:66-76 | the inherited update owes rate times dt more and spawns at two units per particle; the explosion's clock and the system's ring-buffer head do not move |
| ExplosionEmitters.ExplosionEmitter.EmitParticles | Final5625/Scenes/ExplosionEmitter.cs:51-61 | the explosion's clock runs on by delta and the particles owed grow by rate times the new factor times delta, so the emission dies down as the explosion ends; the system's ring-buffer head does not move |
| TrackingCameras.EyePositions | Final5625/TrackingCamera.cs:115-117 | one eye-space position per light |
| TrackingCameras.Falloffs | Final5625/TrackingCamera.cs:118 | one falloff distance per light |
| TrackingCameras.Energies | Final5625/TrackingCamera.cs:119 | one energy per light |
| TrackingCameras.Colors | Final5625/TrackingCamera.cs:120 | one colour per light |
| TrackingCameras.Filled | Final5625/TrackingCamera.cs:110-121 | storing the lights in consecutive slots: the first slots hold the lights in order and the rest keep what they held |
| TrackingCameras.LastInSlotZero | Final5625/TrackingCamera.cs:111-121 | with the slot index never advanced, slot 0 ends up holding the last light and no other slot changes |
| TrackingCameras.AsWrittenLosesLights | Final5625/TrackingCamera.cs:110-121 | two lights of energies 1 and 2 reach the shader, told there are two lights, as energies 2 and 0; stored in consecutive slots they arrive as 1 and 2 |
| TrackingCameras.AsWrittenDiffers | Final5625/TrackingCamera.cs:110-121 | as written, whenever the first light differs from the last, the slots the shader reads do not hold the lights; stored in consecutive slots they always do |
| TrackingCameras.FilledStep | Final5625/TrackingCamera.cs:117-120 | storing the next light in the first unfilled slot extends the filled prefix by it |
| TrackingCameras.LastInSlotZeroStep | Final5625/TrackingCamera.cs:117-120 | overwriting slot 0 is one more turn of the as-written loop |
| TrackingCameras.TrackingCamera.constructor | Final5625/TrackingCamera.cs:50-67 | the given lens, mouse sensitivity 0.01, five units behind the target with no pitch or yaw, not frozen, and light arrays of the shader's size |
| TrackingCameras.TrackingCamera.ToggleCameraFrozen | Final5625/TrackingCamera.cs:138-141 | mouselook switches off or back on and nothing else changes |
| TrackingCameras.TrackingCamera.AddRotation | Final5625/TrackingCamera.cs:149-157 | nothing while frozen; otherwise pitch turns by the negated scaled movement, kept within a full turn by the truncating remainder, and yaw is clamped to 0.1 short of straight up or down |
| TrackingCameras.TrackingCamera.Zoom | Final5625/TrackingCamera.cs:182-186 | the distance behind the target moves by the amount and is clamped to [1, 100] |
| TrackingCameras.TrackingCamera.StoreLight | Final5625/TrackingCamera.cs:115-120 | slot i of each of the four arrays gets the light's value and no other slot changes |
| TrackingCameras.TrackingCamera.TransformPointLightsAsWritten | Final5625/TrackingCamera.cs:108-122 | the light count is min(number of lights, maximum), and each array ends as the last light in slot 0 over its old contents; pitch, yaw, frozen, distance and sensitivity are unchanged |
| TrackingCameras.TrackingCamera.TransformPointLights | Final5625/TrackingCamera.cs:108-122 | the light count is min(number of lights, maximum), and slot k of every array holds light k for each k below that count, the other slots unchanged; pitch, yaw, frozen, distance and sensitivity are unchanged |
| OrthoCameras.PanReverses | SALevelEditor/OrthoCamera.cs:68-72 | panning back by the opposite input over the same time undoes a pan |
| OrthoCameras.PanIsFractionOfView | SALevelEditor/OrthoCamera.cs:70-71 | over unit time a unit input crosses 3/20 of the view's width or height |
| OrthoCameras.OrthoCamera.constructor | SALevelEditor/OrthoCamera.cs:12-33 | the given position and clip planes, a view one unit high and as wide as the aspect ratio |
| OrthoCameras.OrthoCamera.Move | SALevelEditor/OrthoCamera.cs:68-72 | the camera pans by the view-relative delta; its height above the map and the view's size are unchanged |
| OrthoCameras.OrthoCamera.Elevate | SALevelEditor/OrthoCamera.cs:74-78 | the view's height moves by half the wheel input and is clamped to [1, 100]; the position is unchanged |
| ShapeKeys.RealPiece | ShapeKeyProcessor/ShapeKeyImporter.cs:80-87 | reading piece k succeeds exactly when the piece exists and parses, with the parsed value; a missing piece is an index error and a bad number a format error |
| ShapeKeys.VertexOfLine | ShapeKeyProcessor/ShapeKeyImporter.cs:73-89 | a line whose first piece is not "v" is skipped; a vertex line yields the three coordinates its pieces 1 to 3 spell, or the exception of the first piece that is missing or does not parse |
| ShapeKeys.VertexLinesOf | ShapeKeyProcessor/ShapeKeyImporter.cs:74 | every line kept is a vertex line |
| ShapeKeys.VerticesAreVertexLines | ShapeKeyProcessor/ShapeKeyImporter.cs:71-92 | a successful read has one vertex per vertex line, in file order, each the vertex its line spells |
| ShapeKeys.ObjVertexLineReadsBack | ShapeKeyProcessor/ShapeKeyImporter.cs:73-89 | a "v x y z" line written with a number format that parses back is read as the vertex (x, y, z) |
| ShapeKeys.VerticesFromFile | ShapeKeyProcessor/ShapeKeyImporter.cs:64-93 | the line loop returns the vertices of the file's vertex lines in order, or the exception of the first bad vertex line |
| ShapeKeys.VerticesErrorStays | ShapeKeyProcessor/ShapeKeyImporter.cs:84-87 | once a prefix of the file throws, every longer prefix throws the same: reading stops at the first bad line |
| ShapeKeys.DiffsOf | ShapeKeyProcessor/ShapeKeyImporter.cs:98-105 | at most one record per basis vertex |
| ShapeKeys.DiffsMembers | ShapeKeyProcessor/ShapeKeyImporter.cs:98-105 | a record is among the differences exactly when it is the record of a vertex the morph moves by more than 1e-6; each such displacement is longer than 1e-6 and takes its source to the morphed vertex |
| ShapeKeys.DiffsInIndexOrder | ShapeKeyProcessor/ShapeKeyImporter.cs:98-105 | the records come in basis index order: those of the first n vertices are a prefix of those of the first m >= n |
| ShapeKeys.StillMorphHasNoDiffs | ShapeKeyProcessor/ShapeKeyImporter.cs:101 | a morph that moves no vertex by more than 1e-6 gives no records |
| ShapeKeys.Differences | ShapeKeyProcessor/ShapeKeyImporter.cs:95-108 | the loop returns the records of the moved basis vertices, or an index error when the morph has fewer vertices than the basis |
| ShapeKeys.DiffsPrefixOnly | ShapeKeyProcessor/ShapeKeyImporter.cs:98-100 | the records of the first n vertices depend only on the first n basis vertices |
| ShapeKeys.FirstAt | ShapeKeyProcessor/ShapeKeyImporter.cs:112-120 | the index found is that of a record within 1e-6 of the position with none before it; none found means no record is within 1e-6 |
| ShapeKeys.LookupAt | ShapeKeyProcessor/ShapeKeyImporter.cs:110-123 | the lookup fails exactly when the list of differences is empty, with the index error of reading its first record |
| ShapeKeys.FindVertexAtPos | ShapeKeyProcessor/ShapeKeyImporter.cs:110-123 | the foreach loop returns the lookup's answer, and a reported match lies within 1e-6 of the position |
| ShapeKeys.FirstAtIsFirst | ShapeKeyProcessor/ShapeKeyImporter.cs:112-120 | a record at the position with none at the position before it is the one found |
| ShapeKeys.MeshMatchesStep | ShapeKeyProcessor/ShapeKeyImporter.cs:150-161 | one more vertex of a mesh adds its match, if any, after the records of the vertices before it |
| ShapeKeys.MeshMatchesFailure | ShapeKeyProcessor/ShapeKeyImporter.cs:150-161 | matching a mesh fails only when there is a vertex to look up and no differences |
| ShapeKeys.MeshMatchesSound | ShapeKeyProcessor/ShapeKeyImporter.cs:150-161 | every record of a mesh is the match of one of its vertices |
| ShapeKeys.MeshMatchesComplete | ShapeKeyProcessor/ShapeKeyImporter.cs:150-161 | every vertex of a mesh that has a match is recorded |
| ShapeKeys.MeshMatchesOrdered | ShapeKeyProcessor/ShapeKeyImporter.cs:150-161 | the records of a mesh come in strictly increasing vertex order |
| ShapeKeys.MeshMatchesShape | ShapeKeyProcessor/ShapeKeyImporter.cs:150-161 | the failure case, soundness, completeness and order of one mesh's records together |
| ShapeKeys.AllMatchesShape | ShapeKeyProcessor/ShapeKeyImporter.cs:147-163 | over all meshes: failure only on empty differences with a vertex to look up; each record is a vertex's match, every match is recorded, in mesh-then-vertex order |
| ShapeKeys.DiffMorphsToBase | ShapeKeyProcessor/ShapeKeyImporter.cs:143-166 | the nested loops, counting meshes and every vertex whether matched or not, return the matches of all meshes |
| ShapeKeys.AllMatchesAfterMeshError | ShapeKeyProcessor/ShapeKeyImporter.cs:153 | a lookup that throws in one mesh makes the whole call throw the index error |
| ShapeKeys.MorphLineFields | ShapeKeyProcessor/ShapeKeyImporter.cs:37-40 | a MorphDisplacement line splits on spaces into its six fields, each parsing back to its coordinate |
| ShapeKeys.IDLineFields | ShapeKeyProcessor/ShapeKeyImporter.cs:56-59 | an IDDisplacement line splits into five fields: mesh and vertex numbers that parse back as integers and three coordinates that parse back as floats |
| SkeletalMeshes.Names | Final5625/Meshes/SkeletalMeshGroup.cs:77 | one name per clip, each the clip's own name |
| SkeletalMeshes.LibraryOk | Final5625/Meshes/SkeletalMeshGroup.cs:74-83 | adding a list of clips succeeds exactly when none of their names is already in the library and no two are equal |
| SkeletalMeshes.LibraryContents | Final5625/Meshes/SkeletalMeshGroup.cs:74-83 | after a successful addition the library's names are the old ones plus the clips', every clip is found under its name and every earlier entry is kept |
| SkeletalMeshes.LibraryErrorStays | Final5625/Meshes/SkeletalMeshGroup.cs:80-83 | once one addition throws, the whole call throws the first duplicate met, whatever follows |
| SkeletalMeshes.SkeletalMeshGroup.constructor | Final5625/Meshes/SkeletalMeshGroup.cs:29-44 | no meshes, the given skeleton, an empty library, no clip, time 0 and a fresh array of bone transforms of the shader's size |
| SkeletalMeshes.SkeletalMeshGroup.WithMeshes | Final5625/Meshes/SkeletalMeshGroup.cs:29-50 | as above with the given meshes |
| SkeletalMeshes.SkeletalMeshGroup.ClearAnimation | Final5625/Meshes/SkeletalMeshGroup.cs:52-60 | no clip, time 0, and every bone's pose rotation and translation back to the identity |
| SkeletalMeshes.SkeletalMeshGroup.SetCurrentAnimation | Final5625/Meshes/SkeletalMeshGroup.cs:62-72 | a name in the library starts that clip from time 0; an unknown name changes nothing |
| SkeletalMeshes.SkeletalMeshGroup.AddAnimation | Final5625/Meshes/SkeletalMeshGroup.cs:74-78 | the clip is stored under its name, or a duplicate name throws and leaves the library as it was |
| SkeletalMeshes.SkeletalMeshGroup.AddAnimations | Final5625/Meshes/SkeletalMeshGroup.cs:80-83 | the clips are added in list order; the first duplicate stops the loop with the clips before it already added |
| SkeletalMeshes.SkeletalMeshGroup.AddMesh | Final5625/Meshes/SkeletalMeshGroup.cs:85-88 | the mesh is appended to the list; the clip library, current clip, clip time, root bone, bone array and transform array stay |
| SkeletalMeshes.SkeletalMeshGroup.RemoveMesh | Final5625/Meshes/SkeletalMeshGroup.cs:90-93 | the first occurrence of the mesh, if any, is removed; the clip library, current clip, clip time, root bone, bone array and transform array stay |
| SkeletalMeshes.SkeletalMeshGroup.AdvanceAnimation | Final5625/Meshes/SkeletalMeshGroup.cs:150-156 | the new time goes only into a local, so the group is unchanged |
| SkeletalNodes.NextAnimTime | Final5625/Scenes/SkeletalMeshNode.cs:22-25 | 0 with no clip or an empty one; otherwise a non-negative time stays within the clip's length, and a time already within it is kept as is |
| SkeletalNodes.SkeletalMeshNode.constructor | Final5625/Scenes/SkeletalMeshNode.cs:11-20 | no clip, time 0 |
| SkeletalNodes.SkeletalMeshNode.AdvanceAnimation | Final5625/Scenes/SkeletalMeshNode.cs:22-25 | the clip stays and the time wraps around the clip's duration as the truncating remainder does |
| SkeletalNodes.SkeletalMeshNode.ClearAnimation | Final5625/Scenes/SkeletalMeshNode.cs:27-31 | no clip, time 0 |
| SkeletalNodes.SkeletalMeshNode.SwitchAnimation | Final5625/Scenes/SkeletalMeshNode.cs:33-37 | the clip the meshes return for the name, from time 0 |

## Left out

- OpenGL and GPU work is not modelled, because it is foreign calls with no behaviour to state. This covers `ParticleSystem.Init` and the buffer writes, fences and draw call of `ParticleSystem.Render` (only its ring-buffer head advance is modelled), every `render`/`renderMeshes` method, `TrackingCamera.setPointLightUniforms`, and the texture upload in `MapTexture.setTextureData`. The model keeps the texel array that is uploaded.
- Matrix, quaternion and trigonometric numerics are kept as symbolic terms or parameters. This covers `TrackingCamera.computeFrame`, `getMovementVector`, `getProjectionMatrix` and `getViewMatrix`; `OrthoCamera.computeFrame`, `getClickedLoc` and the matrix getters; and `MeshImporter.convertMatrix`, whose result is copied without evaluation. The view transform of a light and the world transform of an explosion particle's start point are parameters.
- The numerics of animation sampling are symbolic. Quaternion Slerp and vector Lerp results are terms. The sample index and the blend factor are modelled.
- Assimp import is out of scope because it is a library that is not shown. The scene is given as values: its node tree, its meshes' vertex lists and bone weights, and its animation strips. This covers `MeshImporter.importFromFile` and `ShapeKeyImporter.ReadFromFile`.
- File and console I/O are left out. Files are sequences of lines, console messages are dropped, and the Python scripts' `img.save` is replaced by the pixel row that would be saved.
- Random draws become parameters. This covers the emitters' `Random`, the `rand.Next(2)` of `LevelMap.setRandomTile` (one draw per tile), and the fairy's random idle actions and blink times.
- Constants whose definitions are not part of this model are parameters: `ShaderProgram.MAX_BONES`, `ShaderProgram.MAX_LIGHTS`, `GameMain.RenderDistance` and the frame rate.
- Methods defined outside the modelled files are represented by their effect on the modelled state:
  - `switchAnimationSmooth` starts the named clip, which is recorded by name;
  - `fetchAnimation` is given as its result;
  - `computeAllRestTransforms` and `printBoneTree` are not modelled.
- Movement and orientation of the characters and emitters are not modelled, because they are matrix numerics and collision correction. This covers `MobileObject`/`PlaceableObject` updates, Okuu's rotation and speed interpolation, blink and morph timing, the translation by velocity, `correctPosition`, projectile flight and `ZombieFairy.checkAttackHit`. The state machines model the state, the animation, the facing direction and the move speed that these consume.
- Distances in `ZombieFairy` are compared through their squares instead of through `sqrt`, which orders them the same way.
- `Vector3.Normalize` (ZombieFairy.cs:245) is a function parameter of `Zombie.Step` and `Zombie.ZombieFairy.Update`. `Zombie.IsNormalize` states what it does to a non-zero vector, and the lemmas that need it require it, because reals have no square root.
- ExplosionEmitters.ExplosionEmitter.constructor: requires a non-zero duration. With a zero duration the C# code divides by zero (ExplosionEmitter.cs:29, :54) and gets an IEEE infinity or NaN, which reals cannot represent.
- Animation.NewAnimationClip: requires the strictly increasing key times that the importer delivers. With two equal neighbouring times `getFrameAtTime` would divide by zero.
- Exact IEEE rounding is not modelled.
  - Each 8-bit channel write in the gradient scripts is the floor of the real value.
  - The level editor's `Single.ToString` is a parameter, assumed to print whole numbers of at most seven digits as integers.
  - The level reader's `float.TryParse` accepts the plain decimal forms that the level files use.
- ShapeKeys.RealPiece: reads a coordinate with `Text.ParseReal`, which accepts only plain decimals (sign, digits, one decimal point). `float.TryParse` (ShapeKeyImporter.cs:80-82) also accepts exponents such as `1e-05`, thousands separators, `NaN` and `Infinity`. The model returns a format error on those, where the C# code reads a vertex, because reals cannot hold NaN or infinity.
- ShapeKeys.VertexOfLine: rejects a vertex line with a coordinate in exponent, grouped, `NaN` or `Infinity` form, through `ShapeKeys.RealPiece`.
- ShapeKeys.VerticesFromFile: fails with a format error on a vertex line that `ShapeKeys.VertexOfLine` rejects, even where the C# reader accepts the line.
- `makeStageWorld` calls `new Stage(data)`, a constructor that Stage.cs does not define. The stage is therefore built from the data's tile grid with the `Stage` constructor that exists. The meshes, lights and emitter that `makeStageWorld` also adds to the scene graph are not modelled.
- `LevelMap_Export.cs` reads `okuuPosition`, `goalPosition` and `zombieFairies`, which LevelMap.cs does not declare. They are plain fields of `LevelMaps.LevelMap`.
- A node of an imported scene is identified by its path of child indices from the search root. This stands for the C# object identity of `Assimp.Node`.
- `SkeletalMeshes.SkeletalTriMesh` keeps only a name, because the mesh data is only passed to rendering. The mesh list is a sequence value, so `SkeletalMeshes.SkeletalMeshGroup.WithMeshes` copies it: the aliasing by which the C# `initialize` shares the caller's `List`, and a later `addMesh` also grows the caller's list, is not modelled.
- ShapeKeys: the 1e-6 closeness tests compare squared lengths with 1e-12 rather than taking a square root.

## Findings

| source | as written | input that shows it | evidently intended | confidence | as-written member | corrected member |
|---|---|---|---|---|---|---|
| Final5625/Scenes/Stages/StageImporter.cs:113-114 | Okuu's world y is computed from `OkuuPosition.X`, so the x coordinate is used twice | `okuu 0 1` with tile side 20: Okuu is placed at (10, 10) on tile (0, 0), not on tile (0, 1); Okuu is placed on the named tile only when its two coordinates are equal | the y coordinate from `OkuuPosition.Y`, as the goal flag's is at lines 125-126 | high; not executed | StageWorld.OkuuAsWrittenOffTile | StageWorld.MakeStageWorld |
| Final5625/TrackingCamera.cs:111-121 | the slot index `i` is never incremented, so every light overwrites slot 0 while the shader is told there are min(count, MAX_LIGHTS) lights | two lights of energies 1 and 2: the shader reads energies 2 and 0 | `i++` after each light, so that light k lands in slot k | high; not executed | TrackingCameras.AsWrittenLosesLights | TrackingCameras.TrackingCamera.TransformPointLights |
| Final5625/data/texture/particle/genFlash.py:10-14 | under the Python 2 interpreter that `import Image` targets, `x / w` and `(w-x) / w` are integer divisions | pixel 100: the fade-in factor is min(0 * 10.0, 1) = 0, so the pixel is (0, 0, 0, 0) rather than (255, 204, 0, 255); every pixel is blank | true division: a fade-in over the first tenth of the row and a fade-out over the last fifth | medium (depends on the interpreter); not executed | FlashTexture.Py2FlashIsBlank | FlashTexture.FlashPlateau |
| Final5625/data/texture/particle/genReaction.py:18-22 | the same integer divisions | pixel 150: (0, 0, 0, 0) rather than the grey (25, 25, 25, 51); every pixel is blank | true division, as in genFlash.py | medium (depends on the interpreter); not executed | ReactionTexture.Py2ReactionIsBlank | ReactionTexture.GreyPlateau |
