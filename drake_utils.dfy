/** The list logic of `dair_pll/drake_utils.py`: the collision geometry set
    built from the scene graph's collision candidates, the product state
    space built from the plant's model instances, and the body lists and
    body identifiers. What Drake answers (the candidate pairs, the friction
    property of a geometry, the bodies and name of a model instance, the
    per-model velocity counts) comes in as plain values. */
module DrakeUtils {
  import opened PyLists

  // ---------------------------------------------------------------------
  // Collision geometry set.

  /** Drake's `GeometryId`: an opaque identifier compared by equality. */
  type GeometryId = int

  /** Drake's `CoulombFriction` property of a geometry. */
  datatype CoulombFriction = CoulombFriction(staticFriction: real, dynamicFriction: real)

  /** `CollisionGeometrySet`: the geometries that may collide, their
      frictions, and the candidate pairs as indices into `ids`. */
  datatype CollisionGeometrySet = CollisionGeometrySet(
    ids: seq<GeometryId>,
    frictions: seq<CoulombFriction>,
    collisionCandidates: seq<(nat, nat)>)

  /** The geometries of the candidate pairs in scanning order: `a` before
      `b` within a pair, pairs in order. */
  function Endpoints(candidates: seq<(GeometryId, GeometryId)>): seq<GeometryId>
    decreases |candidates|
  {
    if candidates == [] then []
    else
      var last := candidates[|candidates| - 1];
      Endpoints(candidates[..|candidates| - 1]) + [last.0, last.1]
  }

  /** The elements of `s` without repetitions, each where it first occurs. */
  function FirstSeen(s: seq<GeometryId>): (r: seq<GeometryId>)
    ensures forall x :: x in r <==> x in s
    decreases |s|
  {
    if s == [] then []
    else
      var init := s[..|s| - 1];
      var seen := FirstSeen(init);
      assert s == init + [s[|s| - 1]];
      if s[|s| - 1] in seen then seen else seen + [s[|s| - 1]]
  }

  /** `s.index(x)`: the position of the first occurrence of `x`. */
  function FirstIndex(s: seq<GeometryId>, x: GeometryId): (r: nat)
    requires x in s
    ensures r < |s| && s[r] == x
    ensures forall i :: 0 <= i < r ==> s[i] != x
  {
    if s[0] == x then 0 else 1 + FirstIndex(s[1..], x)
  }

  /** Deduplication leaves no repetition. */
  lemma {:induction false} FirstSeenDistinct(s: seq<GeometryId>)
    ensures Distinct(FirstSeen(s))
    decreases |s|
  {
    if s != [] {
      FirstSeenDistinct(s[..|s| - 1]);
    }
  }

  /** Adding an element after the end does not move an earlier first
      occurrence. */
  lemma {:induction false} FirstIndexAppend(s: seq<GeometryId>, y: GeometryId, x: GeometryId)
    requires x in s
    ensures FirstIndex(s + [y], x) == FirstIndex(s, x)
    decreases |s|
  {
    if s[0] != x {
      assert (s + [y])[1..] == s[1..] + [y];
      FirstIndexAppend(s[1..], y, x);
    }
  }

  /** Deduplication lists the elements in order of first occurrence. */
  lemma {:induction false} FirstSeenOrder(s: seq<GeometryId>)
    ensures forall i, j :: 0 <= i < j < |FirstSeen(s)| ==>
              FirstIndex(s, FirstSeen(s)[i]) < FirstIndex(s, FirstSeen(s)[j])
    decreases |s|
  {
    if s != [] {
      var init := s[..|s| - 1];
      var last := s[|s| - 1];
      assert s == init + [last];
      FirstSeenOrder(init);
      var seen := FirstSeen(init);
      var out := FirstSeen(s);
      forall i, j | 0 <= i < j < |out|
        ensures FirstIndex(s, out[i]) < FirstIndex(s, out[j])
      {
        assert out[i] == seen[i];
        FirstIndexAppend(init, last, out[i]);
        if j < |seen| {
          assert out[j] == seen[j];
          FirstIndexAppend(init, last, out[j]);
        } else {
          assert out[j] == last && last !in init;
        }
      }
    }
  }

  /** Deduplicating a list without repetitions changes nothing. */
  lemma {:induction false} FirstSeenOfDistinct(s: seq<GeometryId>)
    requires Distinct(s)
    ensures FirstSeen(s) == s
    decreases |s|
  {
    if s != [] {
      var init := s[..|s| - 1];
      FirstSeenOfDistinct(init);
      assert s[|s| - 1] !in init by {
        forall i | 0 <= i < |init| ensures init[i] != s[|s| - 1] {
          assert init[i] == s[i];
        }
      }
      assert s == init + [s[|s| - 1]];
    }
  }

  /** `get_collision_geometry_set(inspector)`: `candidates` is
      `inspector.GetCollisionCandidates()` and `frictionOf(g)` the
      `('material', 'coulomb_friction')` property of geometry `g`. Each
      geometry is added the first time a pair names it; each pair becomes the
      positions of its two geometries; each geometry gets its friction. */
  method GetCollisionGeometrySet(candidates: seq<(GeometryId, GeometryId)>,
                                 frictionOf: GeometryId -> CoulombFriction)
    returns (r: CollisionGeometrySet)
    ensures r.ids == FirstSeen(Endpoints(candidates))
    ensures |r.collisionCandidates| == |candidates|
    ensures forall k :: 0 <= k < |candidates| ==>
              && r.collisionCandidates[k].0 < |r.ids| && r.ids[r.collisionCandidates[k].0] == candidates[k].0
              && r.collisionCandidates[k].1 < |r.ids| && r.ids[r.collisionCandidates[k].1] == candidates[k].1
    ensures |r.frictions| == |r.ids|
    ensures forall j :: 0 <= j < |r.ids| ==> r.frictions[j] == frictionOf(r.ids[j])
  {
    var geometryIds: seq<GeometryId> := [];
    var geometryPairs: seq<(nat, nat)> := [];
    for k := 0 to |candidates|
      invariant geometryIds == FirstSeen(Endpoints(candidates[..k]))
      invariant |geometryPairs| == k
      invariant PairsIndex(geometryIds, geometryPairs, candidates)
    {
      ghost var before := geometryIds;
      assert candidates[..k + 1][..k] == candidates[..k];
      geometryIds := AddNewGeometries(geometryIds, Endpoints(candidates[..k]), candidates[k].0, candidates[k].1);
      var indexA := FirstIndex(geometryIds, candidates[k].0);
      var indexB := FirstIndex(geometryIds, candidates[k].1);
      PairsIndexExtend(before, geometryIds, geometryPairs, candidates);
      geometryPairs := geometryPairs + [(indexA, indexB)];
    }
    assert candidates[..|candidates|] == candidates;
    var frictions := LookUpFrictions(geometryIds, frictionOf);
    r := CollisionGeometrySet(geometryIds, frictions, geometryPairs);
  }

  /** The friction loop of `get_collision_geometry_set`: one friction per
      geometry, in the same order. */
  method LookUpFrictions(ids: seq<GeometryId>, frictionOf: GeometryId -> CoulombFriction)
    returns (frictions: seq<CoulombFriction>)
    ensures |frictions| == |ids|
    ensures forall j :: 0 <= j < |ids| ==> frictions[j] == frictionOf(ids[j])
  {
    frictions := [];
    for j := 0 to |ids|
      invariant |frictions| == j
      invariant forall i :: 0 <= i < j ==> frictions[i] == frictionOf(ids[i])
    {
      frictions := frictions + [frictionOf(ids[j])];
    }
  }

  /** Each of the first `|pairs|` candidate pairs is found at its positions. */
  predicate PairsIndex(ids: seq<GeometryId>, pairs: seq<(nat, nat)>, candidates: seq<(GeometryId, GeometryId)>)
    requires |pairs| <= |candidates|
  {
    forall i :: 0 <= i < |pairs| ==>
      && pairs[i].0 < |ids| && ids[pairs[i].0] == candidates[i].0
      && pairs[i].1 < |ids| && ids[pairs[i].1] == candidates[i].1
  }

  /** Growing the id list at its end keeps earlier positions, and the next
      candidate pair is found at the first positions of its two geometries. */
  lemma PairsIndexExtend(ids: seq<GeometryId>, longer: seq<GeometryId>,
                         pairs: seq<(nat, nat)>, candidates: seq<(GeometryId, GeometryId)>)
    requires |pairs| < |candidates| && |ids| <= |longer| && longer[..|ids|] == ids
    requires candidates[|pairs|].0 in longer && candidates[|pairs|].1 in longer
    requires PairsIndex(ids, pairs, candidates)
    ensures PairsIndex(longer, pairs + [(FirstIndex(longer, candidates[|pairs|].0),
                                         FirstIndex(longer, candidates[|pairs|].1))], candidates)
  {
    var c := candidates[|pairs|];
    var next := pairs + [(FirstIndex(longer, c.0), FirstIndex(longer, c.1))];
    forall i | 0 <= i < |next|
      ensures && next[i].0 < |longer| && longer[next[i].0] == candidates[i].0
              && next[i].1 < |longer| && longer[next[i].1] == candidates[i].1
    {
      if i < |pairs| {
        assert next[i] == pairs[i];
        assert longer[pairs[i].0] == ids[pairs[i].0];
        assert longer[pairs[i].1] == ids[pairs[i].1];
      }
    }
  }

  /** The inner loop of `get_collision_geometry_set`: append `a`, then `b`,
      unless already present. */
  method AddNewGeometries(geometryIds: seq<GeometryId>, ghost scanned: seq<GeometryId>, a: GeometryId, b: GeometryId)
    returns (ids: seq<GeometryId>)
    requires geometryIds == FirstSeen(scanned)
    ensures ids == FirstSeen(scanned + [a, b])
    ensures |geometryIds| <= |ids| && ids[..|geometryIds|] == geometryIds
    ensures a in ids && b in ids
  {
    var pair := [a, b];
    ids := geometryIds;
    assert scanned + pair[..0] == scanned;
    for j := 0 to 2
      invariant ids == FirstSeen(scanned + pair[..j])
      invariant |geometryIds| <= |ids| && ids[..|geometryIds|] == geometryIds
    {
      assert (scanned + pair[..j + 1])[..|scanned + pair[..j + 1]| - 1] == scanned + pair[..j];
      if pair[j] !in ids {
        ids := ids + [pair[j]];
      }
    }
    assert pair[..2] == pair;
  }

  /** The geometry list of a collision geometry set has no repetition, holds
      exactly the geometries named by some candidate pair, and lists them in
      order of first appearance. */
  lemma CollisionIdsProperties(candidates: seq<(GeometryId, GeometryId)>)
    ensures var ids := FirstSeen(Endpoints(candidates));
            && Distinct(ids)
            && (forall g :: g in ids <==> exists k :: 0 <= k < |candidates| && g in [candidates[k].0, candidates[k].1])
            && (forall i, j :: 0 <= i < j < |ids| ==>
                  FirstIndex(Endpoints(candidates), ids[i]) < FirstIndex(Endpoints(candidates), ids[j]))
  {
    var ends := Endpoints(candidates);
    FirstSeenDistinct(ends);
    FirstSeenOrder(ends);
    EndpointsMembers(candidates);
  }

  /** The scanned geometries are exactly those named by some pair. */
  lemma {:induction false} EndpointsMembers(candidates: seq<(GeometryId, GeometryId)>)
    ensures forall g :: g in Endpoints(candidates) <==>
              exists k :: 0 <= k < |candidates| && g in [candidates[k].0, candidates[k].1]
    decreases |candidates|
  {
    if candidates != [] {
      var init := candidates[..|candidates| - 1];
      EndpointsMembers(init);
      forall g | g in Endpoints(candidates)
        ensures exists k :: 0 <= k < |candidates| && g in [candidates[k].0, candidates[k].1]
      {
        if g in Endpoints(init) {
          var k :| 0 <= k < |init| && g in [init[k].0, init[k].1];
          assert candidates[k] == init[k];
        } else {
          assert g in [candidates[|candidates| - 1].0, candidates[|candidates| - 1].1];
        }
      }
      forall g | exists k :: 0 <= k < |candidates| && g in [candidates[k].0, candidates[k].1]
        ensures g in Endpoints(candidates)
      {
        var k :| 0 <= k < |candidates| && g in [candidates[k].0, candidates[k].1];
        if k < |init| {
          assert candidates[k] == init[k];
        }
      }
    }
  }

  /** Two pairs over three geometries give three ids, in first-seen order. */
  lemma CollisionSetExample()
    ensures FirstSeen(Endpoints([(7, 4), (4, 9)])) == [7, 4, 9]
  {
    var c := [(7, 4), (4, 9)];
    assert c[..1] == [(7, 4)];
    assert [(7, 4)][..0] == [];
    assert Endpoints([(7, 4)]) == [7, 4];
    assert Endpoints(c) == [7, 4, 4, 9];
    var s := [7, 4, 4, 9];
    assert s[..3] == [7, 4, 4] && s[..3][..2] == [7, 4] && s[..3][..2][..1] == [7] && [7][..0] == [];
    assert FirstSeen([7]) == [7];
    assert FirstSeen([7, 4]) == [7, 4];
    assert FirstSeen([7, 4, 4]) == [7, 4];
  }

  /** With the ids `[7, 4, 9]` of `CollisionSetExample`, the pairs `(7, 4)`
      and `(4, 9)` become `(0, 1)` and `(1, 2)`. */
  lemma CollisionPairsExample()
    ensures (FirstIndex([7, 4, 9], 7), FirstIndex([7, 4, 9], 4)) == (0, 1)
    ensures (FirstIndex([7, 4, 9], 4), FirstIndex([7, 4, 9], 9)) == (1, 2)
  {
    var ids := [7, 4, 9];
    assert ids[1..] == [4, 9] && ids[1..][1..] == [9];
  }

  // ---------------------------------------------------------------------
  // State space.

  /** `N_DRAKE_FLOATING_BODY_VELOCITIES`: the velocities of a free body. */
  const FloatingBodyVelocities: int := 6

  /** What `generate_state_space` asks the plant about one model instance. */
  datatype ModelInstance = ModelInstance(
    hasUniqueFreeBaseBody: bool,
    freeBodyHasQuaternionDofs: bool,
    numVelocities: int)

  datatype StateSpace = FloatingBaseSpace(nJoints: int) | FixedBaseSpace(nJoints: int)

  datatype ProductSpace = ProductSpace(spaces: seq<StateSpace>)

  /** The check `free_body.has_quaternion_dofs()` a free-base model must pass. */
  predicate QuaternionOk(m: ModelInstance) {
    m.hasUniqueFreeBaseBody ==> m.freeBodyHasQuaternionDofs
  }

  /** The factor of one model: a floating base with the free body's six
      velocities taken off, or a fixed base with all of them. */
  function FactorSpace(m: ModelInstance): StateSpace {
    if m.hasUniqueFreeBaseBody then FloatingBaseSpace(m.numVelocities - FloatingBodyVelocities)
    else FixedBaseSpace(m.numVelocities)
  }

  /** `generate_state_space()` over the plant's model instances in
      `model_ids` order; `None` is the failed quaternion assertion. */
  method GenerateStateSpace(models: seq<ModelInstance>) returns (r: Option<ProductSpace>)
    ensures r.Some? <==> forall k :: 0 <= k < |models| ==> QuaternionOk(models[k])
    ensures r.Some? ==> |r.value.spaces| == |models|
    ensures r.Some? ==> forall k :: 0 <= k < |models| ==> r.value.spaces[k] == FactorSpace(models[k])
  {
    var spaces: seq<StateSpace> := [];
    for k := 0 to |models|
      invariant |spaces| == k
      invariant forall i :: 0 <= i < k ==> QuaternionOk(models[i]) && spaces[i] == FactorSpace(models[i])
    {
      var m := models[k];
      if m.hasUniqueFreeBaseBody {
        if !m.freeBodyHasQuaternionDofs {
          return None;
        }
        var nJoints := m.numVelocities - FloatingBodyVelocities;
        spaces := spaces + [FloatingBaseSpace(nJoints)];
      } else {
        var nJoints := m.numVelocities;
        spaces := spaces + [FixedBaseSpace(nJoints)];
      }
    }
    r := Some(ProductSpace(spaces));
  }

  /** The velocities a factor accounts for: its joints, plus the free body's
      for a floating base. */
  function FactorVelocities(s: StateSpace): int {
    match s
    case FloatingBaseSpace(n) => n + FloatingBodyVelocities
    case FixedBaseSpace(n) => n
  }

  function SpaceVelocities(spaces: seq<StateSpace>): int
    decreases |spaces|
  {
    if spaces == [] then 0 else SpaceVelocities(spaces[..|spaces| - 1]) + FactorVelocities(spaces[|spaces| - 1])
  }

  function PlantVelocities(models: seq<ModelInstance>): int
    decreases |models|
  {
    if models == [] then 0 else PlantVelocities(models[..|models| - 1]) + models[|models| - 1].numVelocities
  }

  /** Each factor accounts for exactly its model's velocities, so the product
      space accounts for all of the plant's. */
  lemma {:induction false} StateSpaceVelocities(models: seq<ModelInstance>, spaces: seq<StateSpace>)
    requires |spaces| == |models|
    requires forall k :: 0 <= k < |models| ==> spaces[k] == FactorSpace(models[k])
    ensures SpaceVelocities(spaces) == PlantVelocities(models)
    decreases |models|
  {
    if models != [] {
      var n := |models| - 1;
      StateSpaceVelocities(models[..n], spaces[..n]);
      assert FactorVelocities(spaces[n]) == models[n].numVelocities;
    }
  }

  // ---------------------------------------------------------------------
  // Bodies.

  /** Drake's `ModelInstanceIndex`. */
  type ModelInstanceIndex = nat

  /** `world_model_instance()`. */
  const WorldModelInstance: ModelInstanceIndex := 0

  datatype Body = Body(modelInstance: ModelInstanceIndex, name: string)

  /** What the body helpers ask the plant: the bodies of a model instance in
      `GetBodyIndices` order, and the name of a model instance. */
  datatype Plant = Plant(bodiesOf: ModelInstanceIndex -> seq<Body>, modelName: ModelInstanceIndex -> string)

  /** Every body the plant lists under a model instance belongs to it. */
  ghost predicate Consistent(plant: Plant) {
    forall m: ModelInstanceIndex, b :: b in plant.bodiesOf(m) ==> b.modelInstance == m
  }

  /** `unique_body_identifier(plant, body)`: `<model name>_<body name>`. */
  function UniqueBodyIdentifier(plant: Plant, body: Body): string {
    plant.modelName(body.modelInstance) + "_" + body.name
  }

  /** The underscore after a model name without one is the identifier's
      first. */
  lemma SeparatorAt(model: string, name: string)
    requires '_' !in model
    ensures (model + "_" + name)[|model|] == '_'
    ensures forall i :: 0 <= i < |model| ==> (model + "_" + name)[i] != '_'
  {
    forall i | 0 <= i < |model| ensures (model + "_" + name)[i] != '_' {
      assert (model + "_" + name)[i] == model[i];
    }
  }

  /** When no model name holds an underscore, the identifier determines the
      model name and the body name. */
  lemma UniqueBodyIdentifierInjective(plant: Plant, b1: Body, b2: Body)
    requires '_' !in plant.modelName(b1.modelInstance) && '_' !in plant.modelName(b2.modelInstance)
    requires UniqueBodyIdentifier(plant, b1) == UniqueBodyIdentifier(plant, b2)
    ensures plant.modelName(b1.modelInstance) == plant.modelName(b2.modelInstance)
    ensures b1.name == b2.name
  {
    var m1, m2 := plant.modelName(b1.modelInstance), plant.modelName(b2.modelInstance);
    var id := UniqueBodyIdentifier(plant, b1);
    assert id == m1 + "_" + b1.name == m2 + "_" + b2.name;
    SeparatorAt(m1, b1.name);
    SeparatorAt(m2, b2.name);
    assert m1 == id[..|m1|] == m2;
    assert b1.name == id[|m1| + 1..] == b2.name;
  }

  /** With an underscore in a model name, two different bodies of two
      different models can share an identifier. */
  lemma UniqueBodyIdentifierCollision()
    ensures var plant := Plant(m => [], m => if m == 1 then "arm_left" else "arm");
            && UniqueBodyIdentifier(plant, Body(1, "link")) == UniqueBodyIdentifier(plant, Body(2, "left_link"))
  {
    var plant := Plant(m => [], m => if m == 1 then "arm_left" else "arm");
    assert UniqueBodyIdentifier(plant, Body(1, "link")) == "arm_left_link";
    assert UniqueBodyIdentifier(plant, Body(2, "left_link")) == "arm_left_link";
  }

  /** The bodies of the model instances `models`, model by model. */
  function AllBodies(plant: Plant, models: seq<ModelInstanceIndex>): seq<Body>
    decreases |models|
  {
    if models == [] then [] else AllBodies(plant, models[..|models| - 1]) + plant.bodiesOf(models[|models| - 1])
  }

  /** A body is listed exactly when one of the models lists it. */
  lemma {:induction false} AllBodiesMembers(plant: Plant, models: seq<ModelInstanceIndex>, b: Body)
    ensures b in AllBodies(plant, models) <==> exists k :: 0 <= k < |models| && b in plant.bodiesOf(models[k])
    decreases |models|
  {
    if models != [] {
      var init := models[..|models| - 1];
      AllBodiesMembers(plant, init, b);
      if b in AllBodies(plant, init) {
        var k :| 0 <= k < |init| && b in plant.bodiesOf(init[k]);
        assert models[k] == init[k];
      }
      if exists k :: 0 <= k < |models| && b in plant.bodiesOf(models[k]) {
        var k :| 0 <= k < |models| && b in plant.bodiesOf(models[k]);
        if k < |init| {
          assert models[k] == init[k];
        }
      }
    }
  }

  /** `get_all_bodies(plant, model_instance_indices)`: the bodies of each
      model in turn, and the identifier of each body. */
  method GetAllBodies(plant: Plant, models: seq<ModelInstanceIndex>)
    returns (bodies: seq<Body>, ids: seq<string>)
    ensures bodies == AllBodies(plant, models)
    ensures |ids| == |bodies|
    ensures forall k :: 0 <= k < |bodies| ==> ids[k] == UniqueBodyIdentifier(plant, bodies[k])
  {
    bodies := [];
    for k := 0 to |models|
      invariant bodies == AllBodies(plant, models[..k])
    {
      assert models[..k + 1][..k] == models[..k];
      bodies := bodies + plant.bodiesOf(models[k]);
    }
    assert models[..|models|] == models;
    ids := seq(|bodies|, k requires 0 <= k < |bodies| => UniqueBodyIdentifier(plant, bodies[k]));
  }

  /** `[m for m in models if m != world_model_instance()]` */
  function WithoutWorld(models: seq<ModelInstanceIndex>): (r: seq<ModelInstanceIndex>)
    ensures forall m :: m in r <==> m in models && m != WorldModelInstance
    decreases |models|
  {
    if models == [] then []
    else
      var rest := WithoutWorld(models[..|models| - 1]);
      var m := models[|models| - 1];
      assert models == models[..|models| - 1] + [m];
      if m != WorldModelInstance then rest + [m] else rest
  }

  /** `get_all_inertial_bodies(plant, model_instance_indices)`: the bodies of
      every model but the world's. */
  method GetAllInertialBodies(plant: Plant, models: seq<ModelInstanceIndex>)
    returns (bodies: seq<Body>, ids: seq<string>)
    ensures bodies == AllBodies(plant, WithoutWorld(models))
    ensures |ids| == |bodies|
    ensures forall k :: 0 <= k < |bodies| ==> ids[k] == UniqueBodyIdentifier(plant, bodies[k])
  {
    bodies, ids := GetAllBodies(plant, WithoutWorld(models));
  }

  /** In a consistent plant, the inertial bodies are the listed bodies of the
      requested models outside the world model. */
  lemma InertialBodiesExcludeWorld(plant: Plant, models: seq<ModelInstanceIndex>, b: Body)
    requires Consistent(plant)
    ensures b in AllBodies(plant, WithoutWorld(models)) <==>
              b.modelInstance != WorldModelInstance && b.modelInstance in models
              && b in plant.bodiesOf(b.modelInstance)
  {
    var kept := WithoutWorld(models);
    AllBodiesMembers(plant, kept, b);
    if b in AllBodies(plant, kept) {
      var k :| 0 <= k < |kept| && b in plant.bodiesOf(kept[k]);
      assert kept[k] in kept;
    }
    if b.modelInstance != WorldModelInstance && b.modelInstance in models && b in plant.bodiesOf(b.modelInstance) {
      assert b.modelInstance in kept;
      var k :| 0 <= k < |kept| && kept[k] == b.modelInstance;
    }
  }
}
