# Dab machine: a Dafny model of its pose-to-note core

The dab machine is a browser instrument. A webcam feeds MediaPipe Pose, which
gives body landmarks for every frame. The app classifies each frame as one of
six dabs (left or right; up, side or down) or as no dab. It maps the dab to a
score from 1 to 6 and looks up the note in that slot of a seven-slot tone
list. It then tells a Tone.js synthesizer to release the sounding note and
attack the new one. A row of note selectors lets the player choose which note
each slot holds.

This project models that core in four modules:

- `Geometry` (`geometry.dfy`): the landmark vector arithmetic of
  `angleBetween3DCoords` and `angleBetween2DVectors`. The floating-point
  primitives (square root, division, arccosine, arctangent, rounding to one
  decimal) are fields of a `FloatOps` value. Every result proved here
  holds whatever those primitives compute, except where a lemma requires
  `SignSymmetric`. Subtraction, addition and multiplication of coordinates
  are exact real arithmetic. `SignSymmetric` assumes three things:
  - arctangent is odd;
  - division is odd in its dividend for every divisor, zero included. This
    forces 0/0 to be 0, where the program gets NaN, and NaN is not
    modelled.
  - division changes sign with a non-zero divisor. The sign of a division
    by zero is not tied to the sign of the zero.

  A vertical shoulder-to-wrist line has a run of zero in the mirror too, so
  its reading is not mirrored.
- `Classifier` (`classifier.dfy`): `DAB_TYPES`, `isChickenWing`,
  `isStraightArm` and `classifyPose`, with their thresholds:
  - the elbow gates are strict, below 65 and above 165 degrees;
  - a chicken wing bends at most 30 degrees, with a slope tolerance of
    25 degrees;
  - a straight arm is 165 to 195 degrees, with a slope tolerance of
    20 degrees.
- `App` (`app.dfy`): the score mapping, the key lookup, and the
  note-triggering part of `onResults`. It has these parts:
  - a pure step function `Respond`/`Step`/`Run` over a sequence of frames;
    each synthesizer command carries the time it takes effect;
  - its invariants: the synthesizer's sounding note agrees with the
    remembered previous key, and every attack follows a release;
  - when frames are more than the 0.05 s lookahead apart, the commands take
    effect in the order they are sent;
  - the `NoteTrigger` class, whose `OnResults` method updates the previous
    key in place and appends the synthesizer calls it makes to `played`.
- `NoteSelect` (`note_setter.dfy`):
  - the construction of the 96 selector options, including the
    reverse-then-reduce idiom of the source;
  - the `NoteSetter` component as a class that writes its selection into
    the shared tone-list array.

Behaviour of the code worth knowing:

- The classifier does not vote over four limbs. A frame is a dab only when
  one elbow gate holds and the bent arm and the straight arm report the same
  slope direction.
- A frame without landmarks makes `onResults` return before any note logic.
  The previous key and the sounding note are held as they were. Nothing is
  released.
- On the first frame the previous key is `null` (`None` here), so a first
  no-dab frame releases nothing. Only a second consecutive no-dab frame
  releases the note.

## Model

| member | source | states |
|---|---|---|
| Geometry.Angle3Symmetric | src/utils.js:17-63 | The elbow angle does not change when the two outer landmarks are swapped. This is why the two elbows can be measured in opposite landmark order. |
| Geometry.Angle3IgnoresDepth | src/utils.js:19-33 | Depth never influences the angle: both difference vectors have z set to 0, so landmarks that agree in x and y give the same angle. |
| Geometry.Angle3 | src/utils.js:17-63 | The angle at the middle landmark, in degrees rounded to one decimal, measured in the image plane. It has no contract of its own; `Angle3Symmetric`, `Angle3IgnoresDepth` and `Angle3Mirror` state its properties. |
| Geometry.Angle2 | src/utils.js:74-81 | The angle between two planar vectors in degrees. It has no contract of its own; `Angle2Mirror` states its property. |
| Geometry.Angle3Mirror | src/utils.js:17-63 | Reflecting all three landmarks about the image's vertical centre line leaves the rounded angle unchanged. |
| Geometry.Angle2Mirror | src/utils.js:74-81 | Reflecting both planar vectors leaves the 2D angle unchanged. |
| Classifier.Name | src/utils.js:83-91 | The `DAB_TYPES` strings, one per label. It has no contract of its own; the four `...NamesSay...` lemmas and `ScoreTable` state what the scoring reads from it. |
| Classifier.SlopeDirection | src/utils.js:110-116 | Direction 0 exactly when the absolute slope is within the tolerance, 1 exactly when it is above the tolerance, and -1 exactly when it is below minus the tolerance. |
| Classifier.Bend | src/utils.js:95-98 | The angle between the wrist-to-elbow and shoulder-to-elbow vectors. It has no contract of its own; `BendMirror` and the rejection clauses of `IsChickenWing` and `IsStraightArm` describe it. |
| Classifier.ForearmSlope | src/utils.js:109 | The forearm slope in degrees, the arctangent of dy/dx. It has no contract of its own; `IsChickenWing` and `SlopeMirror` describe it. |
| Classifier.ReachSlope | src/utils.js:132-133 | The shoulder-to-wrist slope in degrees. It has no contract of its own; `IsStraightArm` and `SlopeMirror` describe it. |
| Classifier.BendMirror | src/utils.js:93-98 | Mirroring the three arm landmarks leaves the bend angle unchanged. |
| Classifier.IsChickenWing | src/utils.js:93-117 | Rejected exactly when the bend angle exceeds 30 degrees or the forearm is vertical (dx = 0). Otherwise the forearm slope gives the direction with a 25-degree tolerance. |
| Classifier.IsStraightArm | src/utils.js:119-141 | Rejected exactly when the bend angle is below 165 or above 195 degrees. Otherwise the shoulder-to-wrist slope gives the direction with a 20-degree tolerance. |
| Classifier.ClassifyPose | src/utils.js:144-218 | A dab is reported only when one of the two elbow gates holds. |
| Classifier.ClassifyRight | src/utils.js:157-184 | A right dab is reported exactly when the right gate holds and the bent right arm and straight left arm agree. Directions 1, 0 and -1 give down, side and up, in both directions of the implication. |
| Classifier.ClassifyLeft | src/utils.js:185-212 | A left dab is reported exactly when the left gate holds and the straight right arm and bent left arm agree. Directions 1, 0 and -1 give up, side and down. |
| Classifier.GatesExclusive | src/utils.js:157-185 | The right-dab and left-dab elbow gates never hold together. |
| Classifier.GateBoundaries | src/utils.js:157-185 | The gate comparisons are strict: an angle of exactly 65 or 165 degrees opens neither the right-dab gate (line 157) nor the left-dab gate (line 185). |
| Classifier.SlopeMirror | src/utils.js:109-133 | A slope whose run is not zero reads with the opposite sign in the mirror. |
| Classifier.ChickenWingMirror | src/utils.js:93-117 | The chicken-wing reading of a mirrored arm is the negated reading of the original arm. A vertical forearm (dx = 0) is rejected on both sides, so no division by zero is involved. |
| Classifier.StraightArmMirror | src/utils.js:119-141 | For an arm whose wrist and shoulder differ in x, the straight-arm reading of the mirrored arm is the negated reading of the original arm. |
| Classifier.StraightArmMirrorVertical | src/utils.js:119-141 | For an arm whose wrist and shoulder share x, the mirrored arm reads exactly the same as the original, not the negation, whatever division by zero and arctangent give. |
| Classifier.ElbowAnglesMirror | src/utils.js:145-155 | In a mirrored frame, the right and left elbow angles trade places. |
| Classifier.ClassifyMirror | src/utils.js:144-218 | A mirrored frame with neither arm vertical from shoulder to wrist is classified as the same direction of dab on the other side, and no dab stays no dab. For a vertical straight arm the reading is not mirrored (`StraightArmMirrorVertical`), so such a frame and its mirror need not correspond. |
| App.Contains | src/App.jsx:99-104 | `String.prototype.includes`: the part occurs at some position of the string. It has no contract of its own; the four `...NamesSay...` lemmas state what it gives on the labels. |
| App.HorizontalScore | src/App.jsx:99 | The horizontal score is 0 or 3; `ScoreComponents` gives it per label. |
| App.VerticalScore | src/App.jsx:100-106 | The vertical score is at most 3; `ScoreComponents` gives it per label. |
| App.TotalScore | src/App.jsx:99-107 | The score never exceeds 6. |
| App.LeftNamesSayLeft | src/App.jsx:99 | A label contains "left" exactly when it is a left dab. |
| App.UpNamesSayUp | src/App.jsx:100 | A label contains "Up" exactly when it is an up dab. |
| App.SideNamesSaySide | src/App.jsx:102 | A label contains "Side" exactly when it is a side dab. |
| App.DownNamesSayDown | src/App.jsx:104 | A label contains "Down" exactly when it is a down dab. |
| App.ScoreComponents | src/App.jsx:99-106 | The horizontal score is 3 for left dabs and 0 otherwise. The vertical score is 1 for up, 2 for side, 3 for down and 0 for no dab. |
| App.ScoreTable | src/App.jsx:99-107 | The six dabs score 1 to 6 (rightUp 1 through leftDown 6), and no dab scores 0. |
| App.ScoreInjective | src/App.jsx:99-107 | Different dabs have different scores, and the score is 0 exactly for no dab. |
| App.Key | src/App.jsx:109-112 | No dab gives the empty key. Every dab gives the note of one of slots 1 to 6, so slot 0 is never read. |
| App.KeyReadsOwnSlot | src/App.jsx:109-112 | The key depends only on the slot numbered by the score: writing any other slot leaves it unchanged. |
| App.KeyAfterWrite | src/App.jsx:109-112 | After a note is written into a dab's slot, that dab's key is that note. |
| App.KeySilentOnlyForNotDab | src/App.jsx:109-112 | When slots 1 to 6 all hold a note, as the default list and the selector options do, the key is empty exactly for no dab. |
| App.Respond | src/App.jsx:118-128 | An attack is issued exactly when the key is non-empty and differs from the previous key. The attack is the key at now + 0.05 and comes right after a release at now. A release is issued exactly for an attack or for a second consecutive empty key. The frame sends exactly two commands on a switch, one on a second silent frame, and none otherwise. |
| App.RespondTimes | src/App.jsx:118-128 | One frame's commands take effect in the order they are sent, between now and now + 0.05. |
| App.Step | src/App.jsx:80-130 | One call of `onResults`: a frame without landmarks sends nothing and keeps the previous key; otherwise the commands of `Respond` for the pose's key, which becomes the previous key. It has no contract of its own; `StepKeepsAgreement` and `StepTimes` state its properties. |
| App.StepTimes | src/App.jsx:114-130 | One frame's commands take effect in the order they are sent, between the frame's time and 0.05 s after it. |
| App.Run | src/App.jsx:80-130 | A run of frames sends at most two commands per frame. The previous key stays null exactly when it started null and no frame had landmarks. |
| App.RunInTimeOrder | src/App.jsx:118-128 | When each frame comes more than 0.05 s after the one before, every command of a run takes effect strictly after the commands sent before it. A release sent by a later frame never lands before an attack an earlier frame scheduled. |
| App.Sounding | src/App.jsx:118-128 | The note a monophonic synthesizer holds after a command sequence: none after a release, the attacked note after an attack, and the earlier note after no commands. It has no contract of its own; `SoundingAppend` states how it composes. |
| App.SoundingAppend | src/App.jsx:118-128 | The note left sounding after two batches of synthesizer calls is the note left by the second batch, started from the note left by the first. |
| App.RespondKeepsAgreement | src/App.jsx:118-130 | The commands for a new key leave the synthesizer in agreement with that key. |
| App.StepKeepsAgreement | src/App.jsx:114-130 | One frame keeps the invariant: no remembered key means nothing sounds, and a non-empty remembered key is the sounding note. |
| App.RunKeepsAgreement | src/App.jsx:114-130 | Any sequence of frames keeps the same invariant. |
| App.TwoNotDabFramesSilence | src/App.jsx:125-128 | After two consecutive no-dab frames, nothing is sounding. |
| App.DabFrameSounds | src/App.jsx:109-123 | After a frame with a dab whose slot holds a note, that note is sounding and is the remembered key. |
| App.RunMonophonic | src/App.jsx:118-123 | In the synthesizer calls of any run, every attack comes directly after a release. |
| App.AttacksNeverOutnumberReleases | src/App.jsx:118-123 | In a call sequence where each attack follows a release, attacks never outnumber releases. |
| App.RunPrefixBalanced | src/App.jsx:118-128 | At every point of a run, the attacks so far do not outnumber the releases so far. |
| App.RepeatedDabPlaysOnce | src/App.jsx:118-123 | Holding a right side dab for two frames plays Eb5 once, as one release and one attack. |
| App.SilentStartReleases | src/App.jsx:125-128 | Two no-dab frames at start-up issue a single release, on the second frame. |
| App.NoteTrigger.constructor | src/App.jsx:19-22 | The previous key starts as null, and the tone list starts as the default seven slots. |
| App.NoteTrigger.OnResults | src/App.jsx:80-130 | A frame without landmarks changes nothing. Otherwise the calls made are those of `Respond` for the classified pose's key, the previous key becomes that key, and the played history grows by exactly those calls. The sounding-note invariant is kept. |
| NoteSelect.OctaveDigit | src/NoteSetter.jsx:8 | The template literal's octave digit: one character from '0' to '9' whose value is the octave. |
| NoteSelect.OctaveRow | src/NoteSetter.jsx:8 | The inner `notes.map`: the pitch names of one octave. It has no contract of its own; `OctaveRows` and `SelectOptionsListing` describe it. |
| NoteSelect.OctaveRows | src/NoteSetter.jsx:7-8 | The outer `ocataves.map`: eight rows, row i being the row of octave i + 1. |
| NoteSelect.ReduceConcat | src/NoteSetter.jsx:10 | The reduce with `curr.concat(prev)`. It has no contract of its own; `ReduceAppend` and `ReduceReversed` state what it computes. |
| NoteSelect.ReduceAppend | src/NoteSetter.jsx:10 | Reducing over two row lists in sequence equals reducing over their concatenation. |
| NoteSelect.SelectOptions | src/NoteSetter.jsx:7-11 | Every option's value equals its label. `SelectOptionsListing` gives the full listing. |
| NoteSelect.Reverse | src/NoteSetter.jsx:9 | Entry i of the result is entry n-1-i of the input. |
| NoteSelect.ReduceReversed | src/NoteSetter.jsx:9-10 | Reversing the rows and then reducing with `curr.concat(prev)` joins the rows in their original order. |
| NoteSelect.SelectOptionsListing | src/NoteSetter.jsx:5-11 | There are 96 options, ordered by octave 1..8 and by pitch class within an octave. Each option's value and label are the same pitch name. |
| NoteSelect.OptionShape | src/NoteSetter.jsx:5-11 | Every option is a pitch class followed by one octave digit from 1 to 8. |
| NoteSelect.OptionsDistinct | src/NoteSetter.jsx:5-11 | No pitch is offered twice. |
| NoteSelect.NoteSetter.constructor | src/NoteSetter.jsx:14-15 | The selection starts as the note currently in the component's slot. |
| NoteSelect.NoteSetter.Choose | src/NoteSetter.jsx:28 | Choosing an option makes its value the selection. |
| NoteSelect.NoteSetter.Commit | src/NoteSetter.jsx:17-19 | The selection is written into the component's own slot and no other slot changes. Committing a selection already in the slot leaves the list as it was. |

## Left out

- Floating-point arithmetic: `Math.sqrt`, `/`, `Math.acos`, `Math.atan`, the radians-to-degree conversion and `Math.round(a * 10) / 10` are abstract `FloatOps` fields. NaN and infinities are not modelled. A zero magnitude or a zero divisor yields whatever `FloatOps.div` returns; `SignSymmetric` makes division odd in its dividend for every divisor, which forces 0/0 to 0 where the program gets NaN. It makes division odd in the divisor only for non-zero divisors, so the signed infinities the program gets from a non-zero dividend over zero are allowed.
- `angleBetween2DCoords` (src/utils.js:67-72) is never called and is not modelled.
- Landmark `visibility` and the other MediaPipe landmarks are not modelled. A frame holds only the six arm landmarks the classifier reads.
- Camera capture, MediaPipe Pose itself, and the canvas drawing in `onResults` (src/App.jsx:61-78, 85-94) are left out, and so is all React rendering.
- The Tone.js synthesizer is recorded as a sequence of `Release`/`Attack` events rather than driven. `Tone.now()` is the `now` parameter.
- App.Sounding: reads the sounding note from the last command sent, in call order. This is the note that ends up sounding only when the commands take effect in call order, which `RunInTimeOrder` proves for frames more than 0.05 s apart. For frames closer than that, a release from a later frame can act before an attack scheduled by an earlier frame. The model then does not say which note sounds, and `RunKeepsAgreement`, `TwoNotDabFramesSilence` and `DabFrameSounds` describe call order only.
- Coordinate arithmetic: the differences, products and sums of landmark coordinates, and the reflection `1 - x`, are exact real arithmetic. In IEEE doubles a mirrored difference can round differently from the original one. So `Angle3Mirror`, `BendMirror`, `ChickenWingMirror`, `StraightArmMirror`, `StraightArmMirrorVertical`, `ElbowAnglesMirror` and `ClassifyMirror` describe the program only up to that rounding, and a mirrored frame whose angle sits on a rounding step or on a 65 or 165 degree boundary may be classified differently.
- Slot 0 of the tone list holds the number 0 in the source. It is modelled as the empty string, which is never read, since the key is looked up only for scores 1 to 6.
- NoteSelect.NoteSetter.Commit: requires the slot index to be inside the array. A JavaScript array would grow on an out-of-range write; the selectors only use slots 1 to 6.
- Classifier.ClassifyPose: its own contract states only that a dab needs an open gate. The full characterisation is in `ClassifyRight`, `ClassifyLeft` and `ClassifyMirror`.
- The effect dependency tracking of React (when the effect runs) is not modelled: `Commit` is the effect's body, called whenever the selection should be written.
