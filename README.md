# Marker-anchored characters: a Dafny model of the placement core

This project models the decision and placement logic of an AR museum app in
which recognised image markers get a virtual character standing next to them.
Two Unity scripts make up the core:

- `CharacterManagerARF` (the placement engine) keeps a table `spawned` from
  image name to game object. For every tracked-image event it spawns the
  character of the first catalog entry for that name (once, and only when the
  entry has a prefab), hides it while the image is not tracked, and otherwise
  stands it on the nearest active plane (XZ distance to the plane's centre,
  height of the plane's transform, plus `heightOffset`), or lets it hover
  `heightOffset` above the image when no plane is available, shifted along the
  image's right axis by the entry's `rightOffset`, and turns it about the
  vertical axis to face the camera. Removed images are hidden, never freed.
  A batch is handled as added, then updated, then removed.
- `PlaneClassifier` deactivates every added or updated plane that is not an
  up-facing horizontal surface with its centre at most 1.2 m high. It never
  activates a plane.

Modules:

- `Wrappers` (`wrappers.dfy`): `Option`, with `None` for a C# null.
- `Geometry` (`geometry.dfy`): `Vec3` and `Quat` over `real`, vector
  arithmetic, squared XZ distance, and `float.MaxValue`.
- `Planes` (`planes.dfy`): plane records in an `array<Plane>`, the
  classification rule as a function, `ClassifyPlane` and `OnPlanesChanged` as
  methods that update the array in place, and the lemmas about batches.
- `Placement` (`placement.dfy`): the catalog, spawned objects, the engine's
  table as a value (`Anchors`), the specification functions of every step,
  and the class `CharacterManager`, whose methods update `spawned` in place and
  are proved equal to those functions.
- `PlacementProperties` (`properties.dfy`): nearest-plane selection, the
  rules of one `HandleImage` call, what batches keep, and a worked example.

Engine calls become data: `Instantiate` copies the prefab's record and hands
out the next instance number (`nextInstance`), so "the same object" means
"the same instance number"; `SetActive` and the transform setters are field
updates on a `GameObject` record; `Quaternion.LookRotation(d.normalized,
Vector3.up)` is the configuration's function `lookRotation` applied to the
y-zeroed direction `d`. The planes the engine scans (`planeManager.trackables`,
`None` when `planeManager` is null) and the camera position (`None` when
`arCamera` is null) are parameters of each call. Distances are compared as
squares, which selects the same plane because the square root is monotone;
the scan's starting bound `float.MaxValue` becomes its square. The literals
`1.2f` and `0.0001f` appear as their exact single-precision values.

The classifier only ever deactivates: `PlaneClassifier.cs` never calls
`SetActive(true)`. `HandleImage` and `RemoveImage` do not null-check the
image, so the model has no null images.

## Model

| member | source | states |
|---|---|---|
| `Planes.Classified` | Assets/Scripts/PlaneClassifier.cs:46-49 | only the active flag changes; a plane that is not up-facing or whose centre is above 1.2f ends inactive; a ground plane is left exactly as it was (in particular at height exactly 1.2f); classification never activates |
| `Planes.ClassifyAtIdempotent` | Assets/Scripts/PlaneClassifier.cs:40-50 | classifying the same plane reference twice gives the same planes as once; a null reference changes nothing |
| `Planes.ClassifyAllScope` | Assets/Scripts/PlaneClassifier.cs:27-38 | after a batch, each plane named in it is as classifying it once leaves it, and every plane not named is untouched |
| `Planes.ClassifyAllDeactivates` | Assets/Scripts/PlaneClassifier.cs:27-49 | a plane named in a batch ends active exactly when it was active and is ground |
| `Planes.ClassifyAllNeverActivates` | Assets/Scripts/PlaneClassifier.cs:46-49 | the set of active planes after a batch is a subset of the set before |
| `Planes.ClassifyAllIdempotent` | Assets/Scripts/PlaneClassifier.cs:27-50 | running the same batch twice gives the same planes as running it once |
| `Planes.ClassifyPlane` | Assets/Scripts/PlaneClassifier.cs:40-50 | the array afterwards is the old array with the referenced plane classified; a null reference leaves it unchanged |
| `Planes.OnPlanesChanged` | Assets/Scripts/PlaneClassifier.cs:27-38 | the array afterwards is the old array with the added references and then the updated references classified in order |
| `Placement.FirstMatch` | Assets/Scripts/CharacterManagerARF.cs:58 | the index found holds an entry with that image name and no earlier entry has it; the length of the catalog when none has it |
| `Placement.FindEntry` | Assets/Scripts/CharacterManagerARF.cs:58 | the entry found is the catalog entry at the first match; on a miss it is the default struct, whose prefab is null and whose right offset is 0 |
| `Placement.Instantiate` | Assets/Scripts/CharacterManagerARF.cs:61-63 | the clone gets the given instance number and the prefab's template, active flag, position and rotation; its scale is the prefab's scale times the entry's scale when that is positive, and the prefab's scale otherwise |
| `Placement.ScanNearest` | Assets/Scripts/CharacterManagerARF.cs:101-123 | after any number of planes the scan holds an active plane closer than `float.MaxValue`, no farther than any active plane and strictly closer than every earlier active plane, or holds none when no active plane is in range |
| `Placement.NearestPlane` | Assets/Scripts/CharacterManagerARF.cs:101-123 | the chosen plane is active and nearest in XZ with the first winning ties; no plane is chosen exactly when no active plane is within `float.MaxValue` |
| `Placement.SpawnStep` | Assets/Scripts/CharacterManagerARF.cs:55-65 | the step returns early exactly when the name is not spawned and its first catalog entry is missing or has a null prefab; otherwise the name is in the table, an existing table is kept as it is, and a new object gets the next instance number |
| `Placement.FaceCamera` | Assets/Scripts/CharacterManagerARF.cs:85-92 | the rotation changes only when facing is on and there is a camera, and then only to the look rotation of the y-zeroed offset to the camera; with facing off or no camera it is unchanged |
| `Placement.HandleStep` | Assets/Scripts/CharacterManagerARF.cs:51-95 | the key set only grows, by at most the image's name; every other name keeps its object unchanged; an existing object is reused (same instance, template and scale); one distinct object per name is preserved |
| `Placement.RemoveStep` | Assets/Scripts/CharacterManagerARF.cs:141-150 | keys and identities stay; a known name's object is hidden and nothing else changes; an unknown name changes nothing; one object per name is preserved |
| `Placement.CharacterManager.constructor` | Assets/Scripts/CharacterManagerARF.cs:30 | the table starts empty |
| `Placement.CharacterManager.PlaceOnClosestPlane` | Assets/Scripts/CharacterManagerARF.cs:97-139 | the loop returns the position on the plane `NearestPlane` chooses, or nothing when there is no plane manager or no plane is chosen |
| `Placement.CharacterManager.HandleImage` | Assets/Scripts/CharacterManagerARF.cs:51-95 | the table afterwards is `HandleStep` of the table before |
| `Placement.CharacterManager.RemoveImage` | Assets/Scripts/CharacterManagerARF.cs:141-150 | the table afterwards is `RemoveStep` of the table before |
| `Placement.CharacterManager.OnTrackedImagesChanged` | Assets/Scripts/CharacterManagerARF.cs:44-49 | the table afterwards is that after handling the added images, then the updated ones, then removing the removed ones |
| `PlacementProperties.NearestPlaneComplete` | Assets/Scripts/CharacterManagerARF.cs:101-123 | any plane that is nearest in that sense is the one chosen, so the rule determines the choice |
| `PlacementProperties.NearestPlaneIgnoresInactive` | Assets/Scripts/CharacterManagerARF.cs:110 | changing an inactive plane into any other inactive plane does not change the choice |
| `PlacementProperties.ChosenPlaneIsGround` | Assets/Scripts/CharacterManagerARF.cs:105-110 | once the classifier has seen every plane, the chosen plane is up-facing with its centre at most 1.2f high |
| `PlacementProperties.HoverAboveImage` | Assets/Scripts/CharacterManagerARF.cs:79-81 | the hover position is the image position moved up by heightOffset and along the image's right axis by the entry's right offset |
| `PlacementProperties.PlaneBesideHover` | Assets/Scripts/CharacterManagerARF.cs:128-132 | the position on a plane differs from the hover position only in height: it takes the plane transform's height instead of the image's |
| `PlacementProperties.CatalogMissIgnored` | Assets/Scripts/CharacterManagerARF.cs:56-59 | an unspawned name whose first catalog entry is missing or has a null prefab leaves the table exactly as it was |
| `PlacementProperties.CatalogMissNeverSpawns` | Assets/Scripts/CharacterManagerARF.cs:56-59 | such a name is never spawned however many images are handled, and images of only that name change nothing |
| `PlacementProperties.SpawnScale` | Assets/Scripts/CharacterManagerARF.cs:61-64 | a catalog hit adds exactly that name with a fresh instance of the entry's prefab, scaled by the entry's scale when it is positive and at the prefab's scale otherwise |
| `PlacementProperties.TrackingGate` | Assets/Scripts/CharacterManagerARF.cs:67-72 | an image not in the Tracking state leaves its object inactive with position and rotation unchanged, also on the call that spawns it |
| `PlacementProperties.TrackedPlacement` | Assets/Scripts/CharacterManagerARF.cs:74-83 | a tracked image's object ends active, at (image x, chosen plane's transform y + heightOffset, image z) plus the right axis times rightOffset, or at the image position plus heightOffset up plus the same shift when no plane is chosen or there is no plane manager |
| `PlacementProperties.FacingRule` | Assets/Scripts/CharacterManagerARF.cs:85-94 | on the tracking path the object ends active; its rotation is the look rotation of the y-zeroed offset to the camera when facing is on, there is a camera and that offset's squared length exceeds 0.0001f, and is unchanged otherwise |
| `PlacementProperties.HandleIdempotent` | Assets/Scripts/CharacterManagerARF.cs:51-95 | handling the same image twice against the same planes and camera gives the same table as handling it once |
| `PlacementProperties.HandleAllKeeps` | Assets/Scripts/CharacterManagerARF.cs:44-47 | handling a sequence of images keeps every spawned name with the same object, and one distinct object per name |
| `PlacementProperties.RemoveAllKeeps` | Assets/Scripts/CharacterManagerARF.cs:141-150 | removing a sequence of images keeps every name and every object and changes only their active flags |
| `PlacementProperties.RemoveAllHides` | Assets/Scripts/CharacterManagerARF.cs:141-150 | every removed name that is spawned ends inactive |
| `PlacementProperties.BatchProperties` | Assets/Scripts/CharacterManagerARF.cs:44-49 | a batch keeps every spawned name and its object, keeps one object per name, and leaves every removed name hidden, even one also reported updated |
| `PlacementProperties.FoxScenario` | Assets/Scripts/CharacterManagerARF.cs:125-135 | an entry of scale 2 and right offset 0.1, tracked at (1, 0, 2) over a plane of height 0.5, is spawned at twice the prefab's scale, shown, and placed at (1.1, 0.51, 2) |

## Left out

- Event subscription in `OnEnable`/`OnDisable` of both scripts and the `Debug.LogError` call: engine wiring, not logic.
- Parenting in `Instantiate(prefab, transform)`: the manager's transform is taken as the identity, so the clone's local scale and world position are the prefab's.
- `raycastManager`: declared and never used.
- `Assets/Scripts/LookCam.cs` (a full `LookAt` every frame) and `Assets/Scripts/RotateWithCam.cs` (a yaw-only turn every frame, threshold 0.001f): per-frame behaviours outside the core, not modelled.
- `Quaternion.LookRotation` is uninterpreted: the model says which direction it is given, not which rotation it returns.
- Floating point: positions, scales and offsets are reals with no rounding; `Vector2.Distance`'s square root is replaced by comparing squares.
- Unity's overloaded null for destroyed objects; plane references in a plane batch are indices into the plane array, which the platform guarantees to be valid.
- The catalog is treated as fixed after start-up, although it is a public list the inspector could change.
- Placement.CharacterManager.HandleImage: its contract ties the new table to `HandleStep` and does not restate the one-object-per-name invariant; that it is kept is stated on `Placement.HandleStep` and `PlacementProperties.BatchProperties`.
- Placement.FaceCamera: its own contract does not state the 0.0001f threshold on the squared horizontal distance; `PlacementProperties.FacingRule` states the full rule, threshold included.
