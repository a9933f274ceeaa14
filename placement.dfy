/**
 * The placement engine: one spawned character per recognised image name,
 * created lazily from the first matching catalog entry, placed on the nearest
 * active plane (or hovering above the image when there is none), turned to
 * face the camera, and hidden when tracking is lost or the image is removed.
 */
module Placement {
  import opened Wrappers
  import opened Geometry
  import opened Planes

  /** `TrackingState` of a tracked image. */
  datatype TrackingState = TrackingNone | Limited | Tracking

  /**
   * One tracked-image observation: the reference image's name, the tracking
   * state, and the world position and right axis of the image's transform.
   */
  datatype TrackedImage = TrackedImage(name: string, trackingState: TrackingState, position: Vec3, right: Vec3)

  /** A prefab: the template id and the transform and active state a clone starts with. */
  datatype Prefab = Prefab(template: nat, active: bool, position: Vec3, rotation: Quat, scale: Vec3)

  /** `CharacterEntry`; a null prefab is `None`. */
  datatype CharacterEntry = CharacterEntry(imageName: string, prefab: Option<Prefab>, scale: real, rightOffset: real)

  /** What `List.Find` returns when nothing matches: the default struct. */
  const DefaultEntry: CharacterEntry := CharacterEntry("", None, 0.0, 0.0)

  /**
   * A spawned game object: `instance` is its identity (one per call to
   * `Instantiate`), `template` the prefab it was cloned from.
   */
  datatype GameObject = GameObject(instance: nat, template: nat, active: bool, position: Vec3, rotation: Quat, scale: Vec3)

  /**
   * The inspector settings: the catalog, `heightOffset`, `faceCamera`, and
   * `lookRotation`, which stands for `Quaternion.LookRotation(d.normalized,
   * Vector3.up)` as a function of the y-zeroed direction `d`.
   */
  datatype Config = Config(catalog: seq<CharacterEntry>, heightOffset: real, faceCamera: bool, lookRotation: Vec3 -> Quat)

  /** The `spawned` table and the identity the next `Instantiate` hands out. */
  datatype Anchors = Anchors(spawned: map<string, GameObject>, nextInstance: nat)

  /** `0.0001f`, the face-camera threshold, as its exact single-precision value. */
  const FaceEpsilon: real := 0.0000999999974737875163555145263671875

  /** Every spawned object has its own identity, all handed out already. */
  predicate ValidAnchors(a: Anchors) {
    && (forall n :: n in a.spawned ==> a.spawned[n].instance < a.nextInstance)
    && (forall n, m :: n in a.spawned && m in a.spawned && n != m ==> a.spawned[n].instance != a.spawned[m].instance)
  }

  /** Same object, same template and scale: only visibility and transform may differ. */
  predicate SameObject(g: GameObject, h: GameObject) {
    g.instance == h.instance && g.template == h.template && g.scale == h.scale
  }

  // ---------------------------------------------------------------- catalog

  /** The index `List.FindIndex` gives for `name`, or `|catalog|` when there is none. */
  function FirstMatch(catalog: seq<CharacterEntry>, name: string): (i: nat)
    ensures i <= |catalog|
    ensures i < |catalog| ==> catalog[i].imageName == name
    ensures forall j :: 0 <= j < i ==> catalog[j].imageName != name
  {
    if catalog == [] then 0
    else if catalog[0].imageName == name then 0
    else 1 + FirstMatch(catalog[1..], name)
  }

  /** `characterEntries.Find(c => c.imageName == name)`. */
  function FindEntry(catalog: seq<CharacterEntry>, name: string): (e: CharacterEntry)
    ensures FirstMatch(catalog, name) < |catalog| ==> e == catalog[FirstMatch(catalog, name)]
    ensures FirstMatch(catalog, name) == |catalog| ==> e.prefab.None? && e.rightOffset == 0.0
  {
    var i := FirstMatch(catalog, name);
    if i < |catalog| then catalog[i] else DefaultEntry
  }

  /** `Instantiate(entry.prefab)` followed by the scale rule of the spawn step. */
  function Instantiate(entry: CharacterEntry, instance: nat): (go: GameObject)
    requires entry.prefab.Some?
    ensures var p := entry.prefab.value;
      && go.instance == instance && go.template == p.template
      && go.active == p.active && go.position == p.position && go.rotation == p.rotation
      && (entry.scale > 0.0 ==> go.scale == Scale(p.scale, entry.scale))
      && (entry.scale <= 0.0 ==> go.scale == p.scale)
  {
    var p := entry.prefab.value;
    GameObject(instance, p.template, p.active, p.position, p.rotation,
      if entry.scale > 0.0 then Scale(p.scale, entry.scale) else p.scale)
  }

  // ---------------------------------------------------------------- planes

  /** The squared XZ distance the scan has to beat when it holds `best`. */
  function BestSq(ps: seq<Plane>, p: Vec3, best: Option<nat>): real
    requires best.Some? ==> best.value < |ps|
  {
    match best
    case None => FloatMax * FloatMax
    case Some(k) => XZDistSq(p, ps[k].center)
  }

  /**
   * The plane the scan of `PlaceOnClosestPlane` holds after looking at the
   * first `n` planes: a plane replaces the current one only when it is active
   * and strictly closer.
   */
  function ScanNearest(ps: seq<Plane>, p: Vec3, n: nat): (best: Option<nat>)
    requires n <= |ps|
    ensures best.Some? ==> IsNearest(ps, p, n, best.value)
    ensures best.None? ==> NoneInRange(ps, p, n)
  {
    if n == 0 then None
    else
      var prev := ScanNearest(ps, p, n - 1);
      if ps[n - 1].active && XZDistSq(p, ps[n - 1].center) < BestSq(ps, p, prev) then Some(n - 1) else prev
  }

  /** The plane `PlaceOnClosestPlane` picks for an image at `p`. */
  function NearestPlane(ps: seq<Plane>, p: Vec3): (best: Option<nat>)
    ensures best.Some? ==> IsNearest(ps, p, |ps|, best.value)
    ensures best.None? <==> NoneInRange(ps, p, |ps|)
  {
    ScanNearest(ps, p, |ps|)
  }

  /**
   * `k` is the plane to pick among the first `n`: active, closer than
   * `float.MaxValue`, no farther than any active plane, and strictly closer
   * than every active plane before it.
   */
  predicate IsNearest(ps: seq<Plane>, p: Vec3, n: nat, k: nat)
    requires n <= |ps|
  {
    && k < n
    && ps[k].active
    && XZDistSq(p, ps[k].center) < FloatMax * FloatMax
    && (forall j :: 0 <= j < n && ps[j].active ==> XZDistSq(p, ps[k].center) <= XZDistSq(p, ps[j].center))
    && (forall j :: 0 <= j < k && ps[j].active ==> XZDistSq(p, ps[k].center) < XZDistSq(p, ps[j].center))
  }

  /** No active plane among the first `n` is closer than `float.MaxValue`. */
  predicate NoneInRange(ps: seq<Plane>, p: Vec3, n: nat)
    requires n <= |ps|
  {
    forall j :: 0 <= j < n && ps[j].active ==> XZDistSq(p, ps[j].center) >= FloatMax * FloatMax
  }

  /** The position on a chosen plane: the plane's height, the image's XZ, shifted right. */
  function PlanePosition(cfg: Config, img: TrackedImage, plane: Plane): Vec3 {
    var entry := FindEntry(cfg.catalog, img.name);
    Add(Vec3(img.position.x, plane.position.y + cfg.heightOffset, img.position.z),
        Scale(img.right, entry.rightOffset))
  }

  /** The hover fallback: above the image by `heightOffset`, shifted right. */
  function HoverPosition(cfg: Config, img: TrackedImage): Vec3 {
    var entry := FindEntry(cfg.catalog, img.name);
    Add(Add(img.position, Scale(Up, cfg.heightOffset)), Scale(img.right, entry.rightOffset))
  }

  /**
   * What `PlaceOnClosestPlane` sets the position to, or `None` when it returns
   * false; `planes` is `None` when `planeManager` is null.
   */
  function PlanePlacement(cfg: Config, img: TrackedImage, planes: Option<seq<Plane>>): Option<Vec3> {
    match planes
    case None => None
    case Some(ps) =>
      match NearestPlane(ps, img.position)
      case None => None
      case Some(k) => Some(PlanePosition(cfg, img, ps[k]))
  }

  /** The position the tracking path gives the object. */
  function TrackedPosition(cfg: Config, img: TrackedImage, planes: Option<seq<Plane>>): Vec3 {
    match PlanePlacement(cfg, img, planes)
    case Some(pos) => pos
    case None => HoverPosition(cfg, img)
  }

  /** Whether the face-camera step turns an object standing at `pos`. */
  predicate Faces(cfg: Config, pos: Vec3, camera: Option<Vec3>) {
    cfg.faceCamera && camera.Some? && SqrMagnitude(Horizontal(Sub(camera.value, pos))) > FaceEpsilon
  }

  /** The rotation after the face-camera step; `camera` is `None` when `arCamera` is null. */
  function FaceCamera(cfg: Config, pos: Vec3, camera: Option<Vec3>, current: Quat): (rot: Quat)
    ensures rot != current ==> cfg.faceCamera && camera.Some?
    ensures rot != current ==> rot == cfg.lookRotation(Horizontal(Sub(camera.value, pos)))
    ensures !cfg.faceCamera || camera.None? ==> rot == current
  {
    if Faces(cfg, pos, camera) then cfg.lookRotation(Horizontal(Sub(camera.value, pos))) else current
  }

  // ---------------------------------------------------------------- steps

  /** The object after the tracking path of `HandleImage`. */
  function Track(cfg: Config, go: GameObject, img: TrackedImage, planes: Option<seq<Plane>>, camera: Option<Vec3>): GameObject {
    var pos := TrackedPosition(cfg, img, planes);
    go.(position := pos, rotation := FaceCamera(cfg, pos, camera, go.rotation), active := true)
  }

  /**
   * The table after the spawn step of `HandleImage`: the existing table when
   * the name is known, one new object under the name on a catalog hit with a
   * prefab, and `None` when the call returns early on a miss.
   */
  function SpawnStep(cfg: Config, a: Anchors, name: string): (r: Option<Anchors>)
    ensures r.None? <==> name !in a.spawned && FindEntry(cfg.catalog, name).prefab.None?
    ensures r.Some? ==> r.value.spawned.Keys == a.spawned.Keys + {name}
    ensures r.Some? && name in a.spawned ==> r.value == a
    ensures r.Some? && name !in a.spawned ==> r.value.spawned[name].instance == a.nextInstance
  {
    if name in a.spawned then Some(a)
    else
      var entry := FindEntry(cfg.catalog, name);
      if entry.prefab.None? then None
      else Some(Anchors(a.spawned[name := Instantiate(entry, a.nextInstance)], a.nextInstance + 1))
  }

  /** The object after the rest of `HandleImage`: hidden, or placed and shown. */
  function Refresh(cfg: Config, go: GameObject, img: TrackedImage, planes: Option<seq<Plane>>, camera: Option<Vec3>): GameObject {
    if img.trackingState != Tracking then go.(active := false) else Track(cfg, go, img, planes, camera)
  }

  /** The table after `HandleImage(img)`. */
  function HandleStep(cfg: Config, a: Anchors, img: TrackedImage, planes: Option<seq<Plane>>, camera: Option<Vec3>): (r: Anchors)
    ensures a.spawned.Keys <= r.spawned.Keys <= a.spawned.Keys + {img.name}
    ensures forall n :: n in a.spawned && n != img.name ==> r.spawned[n] == a.spawned[n]
    ensures img.name in a.spawned ==> SameObject(r.spawned[img.name], a.spawned[img.name]) && r.nextInstance == a.nextInstance
    ensures ValidAnchors(a) ==> ValidAnchors(r)
  {
    match SpawnStep(cfg, a, img.name)
    case None => a
    case Some(m) => m.(spawned := m.spawned[img.name := Refresh(cfg, m.spawned[img.name], img, planes, camera)])
  }

  /** The table after `RemoveImage(img)`. */
  function RemoveStep(a: Anchors, img: TrackedImage): (r: Anchors)
    ensures r.spawned.Keys == a.spawned.Keys && r.nextInstance == a.nextInstance
    ensures forall n :: n in a.spawned && n != img.name ==> r.spawned[n] == a.spawned[n]
    ensures img.name in a.spawned ==> r.spawned[img.name] == a.spawned[img.name].(active := false)
    ensures img.name !in a.spawned ==> r == a
    ensures ValidAnchors(a) ==> ValidAnchors(r)
  {
    if img.name in a.spawned then
      a.(spawned := a.spawned[img.name := a.spawned[img.name].(active := false)])
    else a
  }

  /** The table after handling `imgs` in order. */
  function HandleAll(cfg: Config, a: Anchors, imgs: seq<TrackedImage>, planes: Option<seq<Plane>>, camera: Option<Vec3>): Anchors
    decreases |imgs|
  {
    if imgs == [] then a
    else HandleStep(cfg, HandleAll(cfg, a, imgs[..|imgs| - 1], planes, camera), imgs[|imgs| - 1], planes, camera)
  }

  /** The table after removing `imgs` in order. */
  function RemoveAll(a: Anchors, imgs: seq<TrackedImage>): Anchors
    decreases |imgs|
  {
    if imgs == [] then a else RemoveStep(RemoveAll(a, imgs[..|imgs| - 1]), imgs[|imgs| - 1])
  }

  /** The table after `OnTrackedImagesChanged`: added, then updated, then removed. */
  function BatchStep(cfg: Config, a: Anchors, added: seq<TrackedImage>, updated: seq<TrackedImage>,
                     removed: seq<TrackedImage>, planes: Option<seq<Plane>>, camera: Option<Vec3>): Anchors
  {
    RemoveAll(HandleAll(cfg, HandleAll(cfg, a, added, planes, camera), updated, planes, camera), removed)
  }

  // ---------------------------------------------------------------- the component

  class CharacterManager {
    const config: Config
    var spawned: map<string, GameObject>
    var nextInstance: nat

    function State(): Anchors
      reads this
    {
      Anchors(spawned, nextInstance)
    }

    constructor (config: Config)
      ensures this.config == config && ValidAnchors(State())
      ensures spawned == map[] && nextInstance == 0
    {
      this.config := config;
      spawned := map[];
      nextInstance := 0;
    }

    /**
     * `PlaceOnClosestPlane`: scans the planes for the nearest active one and
     * returns the position on it, or `None` when there is no plane manager or
     * no active plane is found.
     */
    method PlaceOnClosestPlane(img: TrackedImage, planes: Option<seq<Plane>>) returns (pos: Option<Vec3>)
      ensures pos == PlanePlacement(config, img, planes)
    {
      if planes.None? {
        return None;
      }
      var ps := planes.value;
      var closestPlane: Option<nat> := None;
      var closestDist := FloatMax * FloatMax;
      var imgPos := img.position;
      for i := 0 to |ps|
        invariant closestPlane == ScanNearest(ps, imgPos, i)
        invariant closestDist == BestSq(ps, imgPos, closestPlane)
      {
        if !ps[i].active {
          continue;
        }
        var dist := XZDistSq(imgPos, ps[i].center);
        if dist < closestDist {
          closestDist := dist;
          closestPlane := Some(i);
        }
      }
      if closestPlane.Some? {
        var entry := FindEntry(config.catalog, img.name);
        var p := Add(Vec3(imgPos.x, ps[closestPlane.value].position.y + config.heightOffset, imgPos.z),
                     Scale(img.right, entry.rightOffset));
        return Some(p);
      }
      return None;
    }

    /**
     * `HandleImage`: spawns the object on the first catalog hit, hides it when
     * the image is not tracked, and otherwise places, turns and shows it.
     */
    method HandleImage(img: TrackedImage, planes: Option<seq<Plane>>, camera: Option<Vec3>)
      modifies this
      ensures State() == HandleStep(config, old(State()), img, planes, camera)
    {
      ghost var before := State();
      var name := img.name;
      var go: GameObject;
      if name in spawned {
        go := spawned[name];
      } else {
        var entry := FindEntry(config.catalog, name);
        if entry.prefab.None? {
          return;
        }
        go := Instantiate(entry, nextInstance);
        nextInstance := nextInstance + 1;
        spawned := spawned[name := go];
      }
      ghost var mid := State();
      assert SpawnStep(config, before, name) == Some(mid);
      assert go == mid.spawned[name];

      if img.trackingState != Tracking {
        go := go.(active := false);
      } else {
        var placed := PlaceOnClosestPlane(img, planes);
        if placed.None? {
          var pos := Add(img.position, Scale(Up, config.heightOffset));
          var entry := FindEntry(config.catalog, name);
          pos := Add(pos, Scale(img.right, entry.rightOffset));
          go := go.(position := pos);
        } else {
          go := go.(position := placed.value);
        }

        if config.faceCamera && camera.Some? {
          var dir := Sub(camera.value, go.position);
          dir := dir.(y := 0.0);
          if SqrMagnitude(dir) > FaceEpsilon {
            go := go.(rotation := config.lookRotation(dir));
          }
        }

        go := go.(active := true);
      }
      assert go == Refresh(config, mid.spawned[name], img, planes, camera);
      spawned := spawned[name := go];
    }

    /** `RemoveImage`: hides the object of a known name; never frees it. */
    method RemoveImage(img: TrackedImage)
      modifies this
      ensures State() == RemoveStep(old(State()), img)
    {
      var name := img.name;
      if name in spawned {
        spawned := spawned[name := spawned[name].(active := false)];
      }
    }

    /** `OnTrackedImagesChanged`: handles added, then updated, then removes removed. */
    method OnTrackedImagesChanged(added: seq<TrackedImage>, updated: seq<TrackedImage>, removed: seq<TrackedImage>,
                                  planes: Option<seq<Plane>>, camera: Option<Vec3>)
      modifies this
      ensures State() == BatchStep(config, old(State()), added, updated, removed, planes, camera)
    {
      ghost var start := State();
      for i := 0 to |added|
        invariant State() == HandleAll(config, start, added[..i], planes, camera)
      {
        assert added[..i + 1][..i] == added[..i];
        HandleImage(added[i], planes, camera);
      }
      assert added[..|added|] == added;
      ghost var mid := State();
      for i := 0 to |updated|
        invariant State() == HandleAll(config, mid, updated[..i], planes, camera)
      {
        assert updated[..i + 1][..i] == updated[..i];
        HandleImage(updated[i], planes, camera);
      }
      assert updated[..|updated|] == updated;
      ghost var handled := State();
      for i := 0 to |removed|
        invariant State() == RemoveAll(handled, removed[..i])
      {
        assert removed[..i + 1][..i] == removed[..i];
        RemoveImage(removed[i]);
      }
      assert removed[..|removed|] == removed;
    }
  }
}
