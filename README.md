# Robot simulator core in Dafny

This project models the bookkeeping core of a browser-based robot simulator,
`rrsim.js`. A robot uses potential fields to move among walls and obstacles,
visiting numbered homebases in turn. The model covers:

- the **world's object list** with its homebase counter: `addObject`,
  `removeObject`, `clear`, `reset`;
- the **tick**, `World.update`: the robot computes its forces, moves, and is
  rolled back when it collides;
- the **robot's target cycling** and its **collision test**;
- the **sensors' detection lists**;
- the **clamps** on the robot's position and on the segment parameter of
  `Line.distanceToPoint`;
- the **save format**, `serialize` / `deserialize`, over an already-parsed
  document.

The modules follow the file's structure. Each module builds on the ones
before it:

| module | file | contents |
|---|---|---|
| `Options` | options.dfy | `Option` |
| `VectorMath` | vector_math.dfy | `Vector2D` as the value type `Vec`, `Line`, the clamp |
| `WorldObjects` | world_objects.dfy | the four kinds of object (`Shape`), the class `WorldObject`, the tunables `Config` |
| `Registry` | registry.dfy | the list of objects as values, and add and remove over them, with the homebase numbering proved |
| `Sensors` | sensors.dfy | the class `SensorPoint` and its detection list |
| `Robots` | robot.dfy | the class `Robot`: constructor, sensor ring, `calculateForces` step by step, `update`, `detectCollisions` |
| `Codec` | codec.dfy | the document, `serialize`, and the loading order of `deserialize` |
| `Worlds` | world.dfy | the class `World` and its methods, each proved against `Registry` and `Codec` |

The source updates objects in place, so the model does as well:
- `World`, `Robot`, `SensorPoint` and `WorldObject` are classes whose
  methods update their fields.
- The renumbering loop of `removeObject` assigns `number` object by object.
- Forces accumulate into `acceleration` one `applyForce` at a time.

Each such method is proved against a pure specification function:
- `World.Abstract()` is the list as a `Registry.Listing` value.
- `Robots.Acceleration` is the summed force.
- `Sensors.Scan` is a sensor's detection list.

The properties are then proved about those functions.

The host's `Math.sqrt`, `Math.cos`, `Math.sin` and `Math.atan2` are the
fields of a `Numerics` value passed in. The two `Math.random()` draws of a
tick are the parameters `r1` and `r2`. The canvas size is the pair of
constants `width` and `height` of a `World`. The global `config` object is a
`Config` value held by the world. `config.homeBaseCounter` is the world's
field `homeBaseCounter`.

Three behaviours of the code are easy to miss:
- Removal does not renumber the remaining homebases to 1..n; it renumbers
  before the splice (see "## Findings").
- `serialize` does write `homeBaseCounter` (rrsim.js:555). `deserialize`
  ignores it.
- A save-and-load round trip keeps every object. It moves the homebases
  after all other objects, as `Codec.LoadRoundTrip` states.

## Model

| member | source | states |
|---|---|---|
| VectorMath.Clamp | rrsim.js:94 | `max(lo, min(hi, v))` lies in [lo, hi] for a non-empty interval, is v inside it, the nearer end outside it, and lo for an empty interval |
| VectorMath.Normalize | rrsim.js:64-68 | a vector of magnitude 0 normalises to the zero vector |
| VectorMath.Limit | rrsim.js:70-76 | a vector no longer than the limit is returned unchanged |
| VectorMath.ProjectionParameter | rrsim.js:94 | the segment parameter t lies in [0, 1]; it is the raw projection ratio when that lies in [0, 1], 0 below, 1 above |
| VectorMath.ClosestPoint | rrsim.js:89-96 | the point distanceToPoint measures to lies on the segment, start + t·(end − start) for some t in [0, 1]; for a zero-length segment it is the start itself, otherwise t is the clamped ProjectionParameter |
| VectorMath.DistanceToPoint | rrsim.js:89-97 | the distance from the point to some point of the segment, and to the start for a zero-length segment |
| WorldObjects.WorldObject.constructor | rrsim.js:612-618 | a new object has the given geometry and no number (0) |
| Registry.Renumbered | rrsim.js:368-373 | the renumbering keeps the length and the kind of every element |
| Registry.RenumberedInOrder | rrsim.js:368-373 | after the renumbering every homebase carries its 1-based position among the homebases |
| Registry.NumberedRange | rrsim.js:354-356 | when every homebase carries its position among homebases, the numbers present are exactly 1..n for n homebases |
| Registry.Add | rrsim.js:354-358 | add appends exactly one element and keeps the earlier ones; a homebase raises the counter by exactly 1 and carries the new value; any other object leaves the counter alone and keeps its number |
| Registry.AddConsistent | rrsim.js:354-358 | adding keeps the counter equal to the number of homebases |
| Registry.AddNumbered | rrsim.js:350-358 | adding keeps the homebases numbered 1..n in list order |
| Registry.RemoveConsistent | rrsim.js:365-375 | both removals, as written and intended, keep the counter equal to the number of homebases |
| Registry.RemoveAsWritten | rrsim.js:362-378 | removeObject as written at index i: one element fewer, the others' kinds kept in order, the counter down by one exactly for a homebase |
| Registry.RemoveIntended | rrsim.js:362-378 | the splice-then-renumber removal: one element fewer, the others' kinds kept in order, the counter down by one exactly for a homebase |
| Registry.RemoveOtherNumbered | rrsim.js:362-378 | removing an object that is not a homebase deletes exactly that element, keeps the order of the rest, changes neither counter nor numbers, and keeps the numbering |
| Registry.OtherRemovedInOrder | rrsim.js:375 | splicing out an object that is not a homebase leaves every homebase at its position among the homebases |
| Registry.RemoveAsWrittenNumbers | rrsim.js:365-375 | after removing a homebase as written, a homebase before it carries its position among homebases, one after it its position plus one |
| Registry.RemoveAsWrittenNumberedIff | rrsim.js:365-375 | as written, the homebases stay numbered 1..n exactly when the removed one was the last homebase |
| Registry.RemoveAsWrittenGap | rrsim.js:365-375 | as written, removing the j-th of n homebases leaves the numbers 1..n without j, and the counter at n − 1 |
| Registry.RemoveAgreesIffLast | rrsim.js:365-375 | the as-written and the intended removal of a homebase agree exactly when it was the last homebase |
| Registry.RemoveFirstOfThree | rrsim.js:365-375 | removing the first of homebases 1, 2, 3 leaves the numbers 2 and 3 with the counter at 2 |
| Registry.RemoveIntendedNumbered | rrsim.js:365-375 | splicing first and then renumbering keeps the homebases numbered 1..n |
| Sensors.Scan | rrsim.js:236-242 | a detection list holds only walls and obstacles of the list, each with its measured distance below the range, and holds every such object within range |
| Sensors.SensorPoint.constructor | rrsim.js:101-105 | a new sensor is at the given point with an empty detection list |
| Sensors.SensorPoint.Update | rrsim.js:107-111 | the sensor moves to the new point and its list is emptied |
| Sensors.SensorPoint.Detect | rrsim.js:113-128 | detect appends the object with its distance (to the segment for a wall, to the centre otherwise) exactly when that distance is below the range |
| Robots.JsRem | rrsim.js:276 | the host's truncating `%`: a == q·b + r for some integer q, with the remainder of the sign of the dividend and smaller in size than the divisor |
| Robots.NextTarget | rrsim.js:276 | from a target in 1..c the next one lies in 1..c, is the target plus 1 below c, and wraps from c to 1 |
| Robots.TargetsAscend | rrsim.js:274-276 | reaching targets in a row from 1 visits 1, 2, …, c in order |
| Robots.TargetPeriod | rrsim.js:274-276 | after c targets reached the robot aims where it started: the visits repeat with period c |
| Robots.FindHomebase | rrsim.js:267-269 | a found target is a homebase carrying the number looked for |
| Robots.FindHomebaseFirst | rrsim.js:267-269 | the found homebase is the first one of the list with that number, and none is found exactly when no homebase carries it |
| Robots.FoundTargetCounted | rrsim.js:270-276 | when a target is found the counter is at least 1, so the `%` never divides by 0 |
| Robots.RepulsionStrengthDecreasing | rrsim.js:249-250 | a nearer detection pushes harder, and any detection within range pushes with positive strength |
| Robots.NothingDetectedNoRepulsion | rrsim.js:245-264 | sensors that detected nothing add no repulsion |
| Robots.NoiseBounded | rrsim.js:286-289 | each component of the noise lies within ±noiseGain |
| Robots.EdgeForceInward | rrsim.js:304-314 | the boundary force points back into the canvas inside either margin and is 0 between the margins |
| Robots.Attracted | rrsim.js:270-283 | the pull of the target is added only when a target exists and is not reached; on the tick it is reached no attraction is applied |
| Robots.Acceleration | rrsim.js:232-318 | with nothing detected, no pull (no target, or target reached) and the boundary off, only the noise is left |
| Robots.TargetAfterTick | rrsim.js:270-283 | the target number is unchanged when no homebase carries it or it is not reached; when reached it advances within 1..counter and wraps from counter to 1 |
| Robots.Collides | rrsim.js:214-227 | only a wall or an obstacle can collide |
| Robots.Confine | rrsim.js:326-327 | the clamped position lies in [r, width − r] × [r, height − r] when the canvas is at least 2r wide and tall, and a coordinate already inside is kept |
| Robots.Heading | rrsim.js:330-332 | a robot slower than 0.01 keeps its heading; a faster one faces along its velocity |
| Robots.Robot.constructor | rrsim.js:132-141 | a new robot is at the given point, at rest, heading 0, aiming at homebase 1, with radius robotSize / 2 and numSensorPoints fresh sensors placed on its ring |
| Robots.Robot.InitializeSensorPoints | rrsim.js:143-151 | the ring holds numSensorPoints new sensors, sensor i at angle i·2π/n and distance sensorRange, each with an empty list |
| Robots.Robot.UpdateSensorPoints | rrsim.js:153-161 | every sensor is moved to its place on the ring around the current position and its list emptied |
| Robots.Robot.ApplyForce | rrsim.js:207-209 | the force is added to the acceleration |
| Robots.Robot.DetectCollisions | rrsim.js:211-230 | the result is true exactly when some object of the list collides with the robot; it changes nothing |
| Robots.Robot.SenseEach | rrsim.js:237-241 | one sensor's list gains the detections of the sensable objects, in list order |
| Robots.Robot.SenseObjects | rrsim.js:236-242 | every sensor's list gains its detections of the sensable objects; positions stay |
| Robots.Robot.ApplyRepulsion | rrsim.js:245-264 | the acceleration gains the push of every detection, sensor by sensor, in list order |
| Robots.Robot.SeekTarget | rrsim.js:266-283 | the target number becomes TargetAfterTick and the acceleration gains the pull of a target not reached |
| Robots.Robot.ApplyNoise | rrsim.js:285-290 | the acceleration gains the noise of the two draws |
| Robots.Robot.ApplyBoundary | rrsim.js:292-317 | the acceleration gains the boundary force |
| Robots.Robot.AccumulateForces | rrsim.js:244-317 | from zero, the acceleration becomes the sum of repulsion, attraction, noise and boundary force, and the target number advances as TargetAfterTick says |
| Robots.Robot.CalculateForces | rrsim.js:232-318 | the sensors gain their detections, the acceleration is Acceleration of the new lists, and the target advances; position, velocity and heading stay |
| Robots.Robot.Move | rrsim.js:321-332 | velocity gains the acceleration and is limited to robotSpeed, the position moves by it and is confined, and the heading follows the velocity |
| Robots.Robot.Update | rrsim.js:320-336 | the same as Move, then the ring is replaced around the new position and the acceleration is zero |
| Codec.SerializeConfig | rrsim.js:554-563 | the written config carries the counter; loading it into the same tunables changes nothing; robotSize, numSensorPoints and wallThickness are never written |
| Codec.ApplyConfig | rrsim.js:580-584 | each tunable present in the document overwrites the current one and each absent one keeps it |
| Codec.ApplyConfigIgnoresCounter | rrsim.js:582-584 | the document's `homeBaseCounter` has no effect on the tunables |
| Codec.SerializeRecord | rrsim.js:537-552 | a record keeps the geometry, and carries a number exactly for a homebase, that homebase's number |
| Codec.SerializeItems | rrsim.js:537-553 | one record per object, in list order, each the object's SerializeRecord |
| Codec.SplitRecords | rrsim.js:597-598 | the homebase and the other records together are exactly the document's records |
| Codec.SerializeFilter | rrsim.js:537-553 | the homebase records of a serialized list are the serialized homebases, and likewise for the others |
| Codec.InsertPermutes | rrsim.js:626 | inserting adds the one record and loses nothing |
| Codec.InsertSorted | rrsim.js:626 | inserting into a list sorted by number keeps it sorted |
| Codec.InsertStable | rrsim.js:626 | the inserted record comes before the records of its own key, whose order is kept |
| Codec.SortByNumber | rrsim.js:624-626 | the sort keeps the number of homebase records (its order, stability and permutation are the three lemmas beside it) |
| Codec.SortPermutes | rrsim.js:624-626 | the sort of the homebase records is a permutation |
| Codec.SortSorts | rrsim.js:624-626 | the sorted records are in ascending number, a missing number counting as 0 |
| Codec.SortStable | rrsim.js:624-626 | records of equal number keep their document order |
| Codec.SortSorted | rrsim.js:624-626 | an already sorted list is left as it is |
| Codec.AddRecordsSize | rrsim.js:597-637 | adding records grows the list by one per record and the counter by one per homebase record |
| Codec.AddRecordsKeeps | rrsim.js:597-637 | adding records leaves the earlier elements as they were |
| Codec.AddRecordsItem | rrsim.js:597-637 | the j-th added record becomes an element with its geometry and addObject's number |
| Codec.AddRecordsNumbered | rrsim.js:629-637 | adding records keeps the homebases numbered 1..n |
| Codec.Load | rrsim.js:596-637 | the loaded list holds one element per record, and the counter is the number of homebase records; the serialized counter plays no part |
| Codec.LoadOtherAt | rrsim.js:596-620 | the first elements are the non-homebase records, in document order, with no number |
| Codec.LoadHomeAt | rrsim.js:622-637 | after them come the homebases in ascending serialized number, the j-th numbered j + 1 |
| Codec.LoadNumbered | rrsim.js:622-637 | a loaded world has its homebases numbered 1..K with counter K |
| Codec.HomesNumbered | rrsim.js:354-356 | in a list numbered in order, the j-th homebase carries j + 1 and there are as many as the count says |
| Codec.RoundTripOtherAt | rrsim.js:535-620 | saving and loading keeps every non-homebase object, in order, at the front |
| Codec.RoundTripHomeAt | rrsim.js:535-637 | saving and loading puts the homebases, numbered 1..K, after the other objects and keeps each one's number |
| Codec.LoadRoundTrip | rrsim.js:535-637 | loading what serialize wrote from a list numbered 1..K gives back the other objects then the homebases, each unchanged, with counter K |
| Codec.ReloadNumbered | rrsim.js:535-637 | the same round trip for any list whose homebases, taken in order, are numbered 1..K |
| Worlds.IndexOf | rrsim.js:363 | indexOf gives −1 exactly when the object is not listed, and otherwise its first position |
| Worlds.FirstStart | rrsim.js:494 | the first START of the list, or none exactly when there is no START |
| Worlds.FirstStartAppend | rrsim.js:494 | pushing an object keeps the list's first START, and makes the pushed one first when it is a START and there was none |
| Worlds.Advance | rrsim.js:383-384 | calculateForces then Robot.update: the new velocity and confined position, the heading, zero acceleration, the advanced target, and the ring placed around the new position |
| Worlds.Tick | rrsim.js:382-390 | one tick of a present robot: target advanced, acceleration used up; the robot either at its new confined position with the limited velocity, or, on a collision there, back at the position taken before the tick at rest; in both cases the heading follows the new velocity and the sensor ring sits, with empty lists, around the position the move reached; the radius stays |
| Worlds.World.constructor | rrsim.js:340-348 | a new world is empty, without a robot, EDITING, counter 0 |
| Worlds.World.AddObject | rrsim.js:350-360 | add as Registry.Add states, on the object list; a START creates a robot at its point, at rest, heading 0, aiming at homebase 1, with radius robotSize/2 and its sensor ring, only when there is none; an existing robot is untouched |
| Worlds.World.Append | rrsim.js:354-358 | the homebase stamp and the push, as Registry.Add states |
| Worlds.World.RenumberHomebases | rrsim.js:368-373 | the loop gives every homebase its 1-based position among homebases, as Registry.Renumbered states, and leaves the rest alone |
| Worlds.World.RemoveObject | rrsim.js:362-378 | an object that is not listed changes nothing; otherwise the list loses exactly that object, the numbering follows Registry.RemoveAsWritten, and robot and state stay |
| Worlds.World.RemoveAtAsWritten | rrsim.js:364-375 | decrement, renumber, then splice, as Registry.RemoveAsWritten states |
| Worlds.World.RemoveObjectIntended | rrsim.js:362-378 | the corrected removal: the same list, with numbering as Registry.RemoveIntended states, so numbering 1..n is kept |
| Worlds.World.RemoveAtIntended | rrsim.js:365-375 | splice, then renumber, as Registry.RemoveIntended states |
| Worlds.World.SpliceOut | rrsim.js:375 | splice(index, 1) removes exactly the element at index and keeps the others distinct and in order |
| Worlds.World.Update | rrsim.js:380-392 | outside RUNNING or without a robot nothing changes; otherwise the robot ends as Tick states, heading and sensor ring included, its radius and sensor list kept |
| Worlds.World.Clear | rrsim.js:515-520 | no objects, no robot, counter 0 |
| Worlds.World.Reset | rrsim.js:491-512 | a robot goes back to the first START, at rest and aiming at homebase 1, when there is a START, keeping its heading, radius and sensors, and is left alone otherwise; a robot as its constructor built it stays so; the state becomes EDITING; the objects stay |
| Worlds.World.Serialize | rrsim.js:535-566 | the document holds one record per object in list order, and a config that loads back to the same tunables |
| Worlds.World.AddRecords | rrsim.js:597-637 | adding each record as a new object in turn gives the list Codec.AddRecords states, and a robot exactly when a START is listed, which is as built for the first START |
| Worlds.World.AddRecord | rrsim.js:597-637 | one step of those loops: a new object for the record, added as Registry.Add states with number 0; a robot stays as built for the first START |
| Worlds.World.Deserialize | rrsim.js:568-648 | text that is not JSON changes nothing and fails; a document without `objects` fails with an empty world after the clear; otherwise the config is applied without the counter, the list is Codec.Load of the records with homebases numbered 1..K, a robot is at the first START exactly when there is one, at rest, heading 0, aiming at homebase 1, with radius robotSize/2 of the loaded tunables and its sensor ring, and the state is EDITING |
| Worlds.World.LoadObjects | rrsim.js:596-637 | on a cleared world, the two loops give Codec.Load of the records, numbered 1..K, with a robot exactly when a START is listed, as built for the first START |

## Left out

- Drawing on the canvas (`Robot.draw`, `World.draw`), the DOM status and control updates (`updateStatus`, `updateToolButtons`, the control writes inside `deserialize`), and the event listeners and editing tools: user interface only.
- The editing tools' policy of replacing an existing START: it belongs to the user interface, not to `addObject`.
- The selection fields of `World` (`selectedTool`, `selectedObject`, `dragStart`, `tempObject`): they serve only the editor. `reset` clears `selectedObject`, `dragStart` and `tempObject`, and leaves `selectedTool` alone.
- `SensorPoint`'s `parent` field: nothing reads it.
- JSON text: a document is modelled after parsing (`Codec.Input`). Records of unknown type, records missing their coordinates, and the exception caught in `deserialize` for them are not modelled.
- In `deserialize`, the configuration keys a document may carry that are not tunables are not modelled; `Object.assign` would copy them too.
- Floating point: all quantities are `real`, so rounding, NaN and Infinity are not modelled. `Math.sqrt`, `Math.cos`, `Math.sin` and `Math.atan2` are arbitrary functions, so no force magnitude is proved.
- Robots.Quotient: a division by a zero sensor range gives 0 here, where the host gives Infinity or NaN.
- `Math.random`: the two draws of a tick are parameters; `Robots.NoiseBounded` assumes they lie in [0, 1).
- `requestAnimationFrame` and the animation loop: each tick is one call of `Worlds.World.Update`.
- Worlds.World.AddObject: a WorldObject here belongs to at most one world, so the same object cannot be added twice (`obj !in objects`); the source would append it again.

## Findings

| source | as written | input that shows it | evidently intended | confidence | as-written member | corrected member |
|---|---|---|---|---|---|---|
| rrsim.js:365-375 | `removeObject` renumbers all homebases while the removed one is still in the list, then splices it out | homebases numbered 1, 2, 3; remove homebase 1; numbers 2, 3 remain with counter 2, so no homebase carries 1, where a robot starts and where 2 % 2 + 1 leads: it stops seeking, and homebase 3 is never aimed at | splice first, then renumber the remaining homebases to 1..n | not executed | Registry.RemoveFirstOfThree | Registry.RemoveIntendedNumbered |
