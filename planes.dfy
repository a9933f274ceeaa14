/**
 * The plane classifier: every plane reported added or updated is checked, and
 * any plane that is not an up-facing horizontal surface at or below the
 * ground ceiling is deactivated. Nothing here ever activates a plane.
 */
module Planes {
  import opened Wrappers
  import opened Geometry

  /** `PlaneAlignment` as reported by plane detection. */
  datatype Alignment = AlignmentNone | HorizontalUp | HorizontalDown | Vertical | NotAxisAligned

  /**
   * A detected plane: its alignment, the world position of its `center`, the
   * position of its transform, and whether its game object is active.
   */
  datatype Plane = Plane(alignment: Alignment, center: Vec3, position: Vec3, active: bool)

  /** The ground ceiling `1.2f`, as its exact single-precision value. */
  const MaxGroundHeight: real := 1.2000000476837158203125

  /** A plane the classifier leaves alone: up-facing and not above the ceiling. */
  predicate IsGround(p: Plane) {
    p.alignment == HorizontalUp && p.center.y <= MaxGroundHeight
  }

  /** The indices of the active planes. */
  function ActiveSet(ps: seq<Plane>): set<nat> {
    set k: nat | k < |ps| && ps[k].active
  }

  /** Every non-null plane reference in a batch names one of the planes. */
  predicate ValidRefs(refs: seq<Option<nat>>, n: nat) {
    forall i :: 0 <= i < |refs| && refs[i].Some? ==> refs[i].value < n
  }

  /** The plane after `ClassifyPlane` has looked at it. */
  function Classified(p: Plane): (q: Plane)
    ensures q == p.(active := q.active)
    ensures !IsGround(p) ==> !q.active
    ensures IsGround(p) ==> q == p
    ensures q.active ==> p.active
    ensures p.alignment == HorizontalUp && p.center.y == MaxGroundHeight ==> q == p
  {
    if p.alignment != HorizontalUp || p.center.y > MaxGroundHeight then p.(active := false) else p
  }

  /** The planes after classifying one reference; a null reference changes nothing. */
  function ClassifyAt(ps: seq<Plane>, plane: Option<nat>): (r: seq<Plane>)
    requires plane.Some? ==> plane.value < |ps|
    ensures |r| == |ps|
  {
    match plane
    case None => ps
    case Some(k) => ps[k := Classified(ps[k])]
  }

  /** The planes after classifying the references of `refs` in order. */
  function ClassifyAll(ps: seq<Plane>, refs: seq<Option<nat>>): (r: seq<Plane>)
    requires ValidRefs(refs, |ps|)
    ensures |r| == |ps|
    decreases |refs|
  {
    if refs == [] then ps
    else ClassifyAt(ClassifyAll(ps, refs[..|refs| - 1]), refs[|refs| - 1])
  }

  /** Classifying the same plane twice leaves it as classifying it once. */
  lemma ClassifyAtIdempotent(ps: seq<Plane>, plane: Option<nat>)
    requires plane.Some? ==> plane.value < |ps|
    ensures ClassifyAt(ClassifyAt(ps, plane), plane) == ClassifyAt(ps, plane)
    ensures plane.None? ==> ClassifyAt(ps, plane) == ps
  {
  }

  /**
   * A batch classifies exactly the planes it names: a plane named at least once
   * ends as classifying it once makes it, and any other plane is untouched.
   */
  lemma {:induction false} ClassifyAllScope(ps: seq<Plane>, refs: seq<Option<nat>>, k: nat)
    requires ValidRefs(refs, |ps|)
    requires k < |ps|
    ensures Some(k) in refs ==> ClassifyAll(ps, refs)[k] == Classified(ps[k])
    ensures Some(k) !in refs ==> ClassifyAll(ps, refs)[k] == ps[k]
    decreases |refs|
  {
    if refs != [] {
      var init := refs[..|refs| - 1];
      assert refs == init + [refs[|refs| - 1]];
      ClassifyAllScope(ps, init, k);
    }
  }

  /** After a batch, no plane it named is active unless it is ground. */
  lemma ClassifyAllDeactivates(ps: seq<Plane>, refs: seq<Option<nat>>, k: nat)
    requires ValidRefs(refs, |ps|)
    requires k < |ps| && Some(k) in refs
    ensures ClassifyAll(ps, refs)[k].active <==> ps[k].active && IsGround(ps[k])
  {
    ClassifyAllScope(ps, refs, k);
  }

  /** A batch never activates a plane: the active set only shrinks. */
  lemma ClassifyAllNeverActivates(ps: seq<Plane>, refs: seq<Option<nat>>)
    requires ValidRefs(refs, |ps|)
    ensures ActiveSet(ClassifyAll(ps, refs)) <= ActiveSet(ps)
  {
    forall k | k in ActiveSet(ClassifyAll(ps, refs)) ensures k in ActiveSet(ps) {
      ClassifyAllScope(ps, refs, k);
    }
  }

  /** Running the same batch twice leaves the planes as running it once. */
  lemma ClassifyAllIdempotent(ps: seq<Plane>, refs: seq<Option<nat>>)
    requires ValidRefs(refs, |ps|)
    ensures ClassifyAll(ClassifyAll(ps, refs), refs) == ClassifyAll(ps, refs)
  {
    var once := ClassifyAll(ps, refs);
    forall k | 0 <= k < |ps| ensures ClassifyAll(once, refs)[k] == once[k] {
      ClassifyAllScope(ps, refs, k);
      ClassifyAllScope(once, refs, k);
    }
  }

  /**
   * `ClassifyPlane`: deactivates the referenced plane unless it is ground; a
   * null reference is skipped.
   */
  method ClassifyPlane(planes: array<Plane>, plane: Option<nat>)
    requires plane.Some? ==> plane.value < planes.Length
    modifies planes
    ensures planes[..] == ClassifyAt(old(planes[..]), plane)
  {
    if plane.None? {
      return;
    }
    var k := plane.value;
    if planes[k].alignment != HorizontalUp || planes[k].center.y > MaxGroundHeight {
      planes[k] := planes[k].(active := false);
    }
  }

  /** `OnPlanesChanged`: classifies every added plane, then every updated one. */
  method OnPlanesChanged(planes: array<Plane>, added: seq<Option<nat>>, updated: seq<Option<nat>>)
    requires ValidRefs(added, planes.Length) && ValidRefs(updated, planes.Length)
    modifies planes
    ensures ValidRefs(added + updated, planes.Length)
    ensures planes[..] == ClassifyAll(old(planes[..]), added + updated)
  {
    ghost var start := planes[..];
    var refs := added + updated;
    for i := 0 to |added|
      invariant planes[..] == ClassifyAll(start, refs[..i])
    {
      assert refs[..i + 1][..i] == refs[..i];
      ClassifyPlane(planes, added[i]);
    }
    for j := 0 to |updated|
      invariant planes[..] == ClassifyAll(start, refs[..|added| + j])
    {
      assert refs[..|added| + j + 1][..|added| + j] == refs[..|added| + j];
      ClassifyPlane(planes, updated[j]);
    }
    assert refs[..|refs|] == refs;
  }
}
