/**
 * Properties of the placement engine: nearest-plane selection, the spawn,
 * tracking, placement and facing rules of one `HandleImage` call, and what a
 * whole batch of image events keeps.
 */
module PlacementProperties {
  import opened Wrappers
  import opened Geometry
  import opened Planes
  import opened Placement

  // ---------------------------------------------------------------- nearest plane

  /** Conversely, a plane that is nearest in that sense is the one chosen. */
  lemma NearestPlaneComplete(ps: seq<Plane>, p: Vec3, k: nat)
    requires k < |ps| && IsNearest(ps, p, |ps|, k)
    ensures NearestPlane(ps, p) == Some(k)
  {
  }

  /** Inactive planes are never chosen, whatever their distance. */
  lemma NearestPlaneIgnoresInactive(ps: seq<Plane>, p: Vec3, k: nat, q: Plane)
    requires k < |ps| && !ps[k].active && !q.active
    ensures NearestPlane(ps[k := q], p) == NearestPlane(ps, p)
  {
    var qs := ps[k := q];
    match NearestPlane(ps, p)
    case Some(b) =>
      assert IsNearest(qs, p, |qs|, b);
      NearestPlaneComplete(qs, p, b);
    case None =>
      assert NoneInRange(qs, p, |qs|);
  }

  /**
   * Once the classifier has looked at every plane, the plane the engine
   * chooses is an up-facing surface at or below the ground ceiling.
   */
  lemma ChosenPlaneIsGround(ps: seq<Plane>, refs: seq<Option<nat>>, p: Vec3)
    requires ValidRefs(refs, |ps|)
    requires forall k :: 0 <= k < |ps| ==> Some(k) in refs
    ensures NearestPlane(ClassifyAll(ps, refs), p).Some? ==>
              IsGround(ClassifyAll(ps, refs)[NearestPlane(ClassifyAll(ps, refs), p).value])
  {
    var qs := ClassifyAll(ps, refs);
    if NearestPlane(qs, p).Some? {
      var k := NearestPlane(qs, p).value;
      ClassifyAllScope(ps, refs, k);
    }
  }

  // ---------------------------------------------------------------- one HandleImage call

  /**
   * The hover fallback is the image position moved up by `heightOffset` and
   * along the image's right axis by the entry's offset.
   */
  lemma HoverAboveImage(cfg: Config, img: TrackedImage)
    ensures Sub(HoverPosition(cfg, img), img.position)
         == Add(Vec3(0.0, cfg.heightOffset, 0.0), Scale(img.right, FindEntry(cfg.catalog, img.name).rightOffset))
  {
  }

  /**
   * The position on a plane differs from the hover fallback only in height:
   * it takes the plane transform's height instead of the image's.
   */
  lemma PlaneBesideHover(cfg: Config, img: TrackedImage, plane: Plane)
    ensures Sub(PlanePosition(cfg, img, plane), HoverPosition(cfg, img)) == Vec3(0.0, plane.position.y - img.position.y, 0.0)
  {
  }

  /**
   * A name that is not spawned and whose first catalog entry is missing or has
   * no prefab leaves the table exactly as it was.
   */
  lemma CatalogMissIgnored(cfg: Config, a: Anchors, img: TrackedImage, planes: Option<seq<Plane>>, camera: Option<Vec3>)
    requires img.name !in a.spawned && FindEntry(cfg.catalog, img.name).prefab.None?
    ensures HandleStep(cfg, a, img, planes, camera) == a
  {
  }

  /** Such a name is never spawned, however many images are handled. */
  lemma {:induction false} CatalogMissNeverSpawns(cfg: Config, a: Anchors, imgs: seq<TrackedImage>, name: string,
                                                   planes: Option<seq<Plane>>, camera: Option<Vec3>)
    requires name !in a.spawned && FindEntry(cfg.catalog, name).prefab.None?
    ensures name !in HandleAll(cfg, a, imgs, planes, camera).spawned
    ensures (forall i :: 0 <= i < |imgs| ==> imgs[i].name == name) ==> HandleAll(cfg, a, imgs, planes, camera) == a
    decreases |imgs|
  {
    if imgs != [] {
      CatalogMissNeverSpawns(cfg, a, imgs[..|imgs| - 1], name, planes, camera);
    }
  }

  /**
   * A catalog hit with a prefab spawns one new object under the name, with the
   * next identity, the prefab's scale times the entry's scale when that is
   * positive, and the prefab's own scale otherwise.
   */
  lemma SpawnScale(cfg: Config, a: Anchors, img: TrackedImage, planes: Option<seq<Plane>>, camera: Option<Vec3>)
    requires img.name !in a.spawned && FindEntry(cfg.catalog, img.name).prefab.Some?
    ensures var r := HandleStep(cfg, a, img, planes, camera);
      var entry := FindEntry(cfg.catalog, img.name);
      && img.name in r.spawned
      && r.spawned.Keys == a.spawned.Keys + {img.name}
      && r.nextInstance == a.nextInstance + 1
      && r.spawned[img.name].instance == a.nextInstance
      && r.spawned[img.name].template == entry.prefab.value.template
      && (entry.scale > 0.0 ==> r.spawned[img.name].scale == Scale(entry.prefab.value.scale, entry.scale))
      && (entry.scale <= 0.0 ==> r.spawned[img.name].scale == entry.prefab.value.scale)
  {
  }

  /**
   * An image that is not tracked leaves its object hidden with its position and
   * rotation as they were, or as the prefab gave them on the call that
   * spawned it.
   */
  lemma TrackingGate(cfg: Config, a: Anchors, img: TrackedImage, planes: Option<seq<Plane>>, camera: Option<Vec3>)
    requires img.trackingState != Tracking
    ensures var r := HandleStep(cfg, a, img, planes, camera);
      && (img.name in a.spawned ==> r.spawned[img.name] == a.spawned[img.name].(active := false))
      && (img.name !in a.spawned && img.name in r.spawned ==>
            var prefab := FindEntry(cfg.catalog, img.name).prefab.value;
            && !r.spawned[img.name].active
            && r.spawned[img.name].position == prefab.position
            && r.spawned[img.name].rotation == prefab.rotation)
  {
  }

  /**
   * A tracked image leaves its object shown, on the nearest active plane at the
   * plane's transform height plus `heightOffset`, or hovering `heightOffset`
   * above the image when there is no plane manager or no plane is chosen;
   * either way shifted along the image's right axis by the entry's offset.
   */
  lemma TrackedPlacement(cfg: Config, a: Anchors, img: TrackedImage, planes: Option<seq<Plane>>, camera: Option<Vec3>)
    requires img.trackingState == Tracking
    requires img.name in HandleStep(cfg, a, img, planes, camera).spawned
    ensures var go := HandleStep(cfg, a, img, planes, camera).spawned[img.name];
      var shift := Scale(img.right, FindEntry(cfg.catalog, img.name).rightOffset);
      && go.active
      && (planes.Some? && NearestPlane(planes.value, img.position).Some? ==>
            var plane := planes.value[NearestPlane(planes.value, img.position).value];
            go.position == Add(Vec3(img.position.x, plane.position.y + cfg.heightOffset, img.position.z), shift))
      && (planes.None? || NearestPlane(planes.value, img.position).None? ==>
            go.position == Add(Add(img.position, Vec3(0.0, cfg.heightOffset, 0.0)), shift))
  {
  }

  /**
   * On the tracking path the rotation changes only when facing is on, there is
   * a camera, and the y-zeroed offset to it is longer than the threshold; then
   * it is the look rotation of that horizontal offset alone.
   */
  lemma FacingRule(cfg: Config, a: Anchors, img: TrackedImage, planes: Option<seq<Plane>>, camera: Option<Vec3>)
    requires img.trackingState == Tracking
    requires img.name in HandleStep(cfg, a, img, planes, camera).spawned
    ensures var go := HandleStep(cfg, a, img, planes, camera).spawned[img.name];
      var before := if img.name in a.spawned then a.spawned[img.name].rotation
                    else FindEntry(cfg.catalog, img.name).prefab.value.rotation;
      var c := if camera.Some? then camera.value else go.position;
      var dir := Vec3(c.x - go.position.x, 0.0, c.z - go.position.z);
      var turns := cfg.faceCamera && camera.Some? && dir.x * dir.x + dir.z * dir.z > FaceEpsilon;
      && go.active
      && (turns ==> go.rotation == cfg.lookRotation(dir))
      && (!turns ==> go.rotation == before)
  {
    var m := SpawnStep(cfg, a, img.name).value;
    var obj := m.spawned[img.name];
    assert obj.rotation == (if img.name in a.spawned then a.spawned[img.name].rotation
                            else FindEntry(cfg.catalog, img.name).prefab.value.rotation);
    var pos := TrackedPosition(cfg, img, planes);
    assert HandleStep(cfg, a, img, planes, camera).spawned[img.name] == Track(cfg, obj, img, planes, camera);
    assert Track(cfg, obj, img, planes, camera).rotation == FaceCamera(cfg, pos, camera, obj.rotation);
  }

  /** Handling the same image twice against the same planes and camera changes nothing more. */
  lemma HandleIdempotent(cfg: Config, a: Anchors, img: TrackedImage, planes: Option<seq<Plane>>, camera: Option<Vec3>)
    ensures var once := HandleStep(cfg, a, img, planes, camera);
      HandleStep(cfg, once, img, planes, camera) == once
  {
  }

  // ---------------------------------------------------------------- batches

  /** Handling images keeps every spawned name and reuses its object. */
  lemma {:induction false} HandleAllKeeps(cfg: Config, a: Anchors, imgs: seq<TrackedImage>,
                                          planes: Option<seq<Plane>>, camera: Option<Vec3>)
    ensures var r := HandleAll(cfg, a, imgs, planes, camera);
      && a.spawned.Keys <= r.spawned.Keys
      && (forall n :: n in a.spawned ==> SameObject(r.spawned[n], a.spawned[n]))
      && (ValidAnchors(a) ==> ValidAnchors(r))
    decreases |imgs|
  {
    if imgs != [] {
      HandleAllKeeps(cfg, a, imgs[..|imgs| - 1], planes, camera);
    }
  }

  /** Removing images keeps every name and every object, changing only visibility. */
  lemma {:induction false} RemoveAllKeeps(a: Anchors, imgs: seq<TrackedImage>)
    ensures var r := RemoveAll(a, imgs);
      && r.spawned.Keys == a.spawned.Keys
      && r.nextInstance == a.nextInstance
      && (forall n :: n in a.spawned ==> r.spawned[n] == a.spawned[n].(active := r.spawned[n].active))
      && (ValidAnchors(a) ==> ValidAnchors(r))
    decreases |imgs|
  {
    if imgs != [] {
      RemoveAllKeeps(a, imgs[..|imgs| - 1]);
    }
  }

  /** Every removed name that is spawned ends hidden. */
  lemma {:induction false} RemoveAllHides(a: Anchors, imgs: seq<TrackedImage>)
    ensures var r := RemoveAll(a, imgs);
      forall i :: 0 <= i < |imgs| && imgs[i].name in r.spawned ==> !r.spawned[imgs[i].name].active
    decreases |imgs|
  {
    if imgs != [] {
      RemoveAllHides(a, imgs[..|imgs| - 1]);
    }
  }

  /**
   * A batch keeps every spawned name with its object, keeps at most one object
   * per name, and leaves every name it reports removed hidden, even one that
   * was also reported updated.
   */
  lemma BatchProperties(cfg: Config, a: Anchors, added: seq<TrackedImage>, updated: seq<TrackedImage>,
                        removed: seq<TrackedImage>, planes: Option<seq<Plane>>, camera: Option<Vec3>)
    ensures var r := BatchStep(cfg, a, added, updated, removed, planes, camera);
      && a.spawned.Keys <= r.spawned.Keys
      && (forall n :: n in a.spawned ==> SameObject(r.spawned[n], a.spawned[n]))
      && (forall i :: 0 <= i < |removed| && removed[i].name in r.spawned ==> !r.spawned[removed[i].name].active)
      && (ValidAnchors(a) ==> ValidAnchors(r))
  {
    var m1 := HandleAll(cfg, a, added, planes, camera);
    var m2 := HandleAll(cfg, m1, updated, planes, camera);
    HandleAllKeeps(cfg, a, added, planes, camera);
    HandleAllKeeps(cfg, m1, updated, planes, camera);
    RemoveAllKeeps(m2, removed);
    RemoveAllHides(m2, removed);
  }

  // ---------------------------------------------------------------- a worked example

  /**
   * "fox" has scale 2 and right offset 0.1; tracked at (1, 0, 2) with right
   * axis (1, 0, 0) over one active plane at height 0.5 centred under it, it is
   * spawned at twice the prefab's scale and placed at (1.1, 0.51, 2).
   */
  lemma FoxScenario(prefab: Prefab, look: Vec3 -> Quat)
    ensures var cfg := Config([CharacterEntry("fox", Some(prefab), 2.0, 0.1)], 0.01, true, look);
      var img := TrackedImage("fox", Tracking, Vec3(1.0, 0.0, 2.0), Vec3(1.0, 0.0, 0.0));
      var plane := Plane(HorizontalUp, Vec3(1.0, 0.5, 2.0), Vec3(1.0, 0.5, 2.0), true);
      var r := HandleStep(cfg, Anchors(map[], 0), img, Some([plane]), None);
      && "fox" in r.spawned
      && r.spawned["fox"].position == Vec3(1.1, 0.51, 2.0)
      && r.spawned["fox"].scale == Scale(prefab.scale, 2.0)
      && r.spawned["fox"].active
  {
  }
}
