/** Entities on the track and their per-tick motion and despawn. */
module Track {

  /** An obstacle or a coin: its lane x position and its vertical position y
      (y grows downward, toward the player). */
  datatype Entity = Entity(x: int, y: real)

  /** Logical height of the play area. */
  const HEIGHT: real := 640.0

  /** Speeds, in units per second. */
  const OBSTACLE_SPEED: real := 240.0
  const COIN_SPEED: real := 240.0

  /** Where entities appear, above the visible area. */
  const OBSTACLE_SPAWN_Y: real := -50.0
  const COIN_SPAWN_Y: real := -150.0

  /** Entities whose y exceeds these bounds are destroyed. */
  const OBSTACLE_DESPAWN_Y: real := HEIGHT + 100.0
  const COIN_DESPAWN_Y: real := HEIGHT + 50.0

  /** Distance covered in `delta` milliseconds at `speed` units per second. */
  function Displacement(speed: real, delta: real): real
  {
    speed * (delta / 1000.0)
  }

  /** Every entity shifted down by dy, in place. */
  function Moved(es: seq<Entity>, dy: real): seq<Entity>
  {
    seq(|es|, k requires 0 <= k < |es| => Entity(es[k].x, es[k].y + dy))
  }

  /** The entities that are not past the despawn bound, in their original order. */
  function Survivors(es: seq<Entity>, bound: real): (r: seq<Entity>)
    ensures |r| <= |es|
    ensures forall e :: e in r ==> e in es && e.y <= bound
  {
    if es == [] then []
    else
      var last := es[|es| - 1];
      Survivors(es[..|es| - 1], bound) + (if last.y > bound then [] else [last])
  }

  /** Every entity within the bound survives. */
  lemma {:induction false} SurvivorsComplete(es: seq<Entity>, bound: real, e: Entity)
    requires e in es && e.y <= bound
    ensures e in Survivors(es, bound)
    decreases |es|
  {
    var init := es[..|es| - 1];
    assert es == init + [es[|es| - 1]];
    if e != es[|es| - 1] {
      SurvivorsComplete(init, bound, e);
    }
  }

  /** Despawning two consecutive groups of entities is despawning each group. */
  lemma {:induction false} SurvivorsAppend(a: seq<Entity>, b: seq<Entity>, bound: real)
    ensures Survivors(a + b, bound) == Survivors(a, bound) + Survivors(b, bound)
    decreases |b|
  {
    if b == [] {
      assert a + b == a;
    } else {
      var init := b[..|b| - 1];
      assert (a + b)[..|a + b| - 1] == a + init;
      SurvivorsAppend(a, init, bound);
    }
  }

  /** One tick of motion for a collection: move every entity by dy and destroy those past the bound. */
  method Advance(es: seq<Entity>, dy: real, bound: real) returns (kept: seq<Entity>)
    ensures kept == Survivors(Moved(es, dy), bound)
  {
    kept := [];
    var i := 0;
    while i < |es|
      invariant 0 <= i <= |es|
      invariant kept == Survivors(Moved(es[..i], dy), bound)
    {
      var moved := Entity(es[i].x, es[i].y + dy);
      if !(moved.y > bound) {
        kept := kept + [moved];
      }
      assert es[..i + 1] == es[..i] + [es[i]];
      SpawnThenAdvance(es[..i], es[i], dy, bound);
      i := i + 1;
    }
    assert es[..i] == es;
  }

  /** After one tick, every remaining entity is an original one, same lane, moved down by dy,
      and within the bound; every original whose new position is within the bound remains. */
  lemma AdvanceMeaning(es: seq<Entity>, dy: real, bound: real)
    ensures forall e :: e in Survivors(Moved(es, dy), bound) ==>
              e.y <= bound && exists k :: 0 <= k < |es| && e == Entity(es[k].x, es[k].y + dy)
    ensures forall k :: 0 <= k < |es| && es[k].y + dy <= bound ==>
              Entity(es[k].x, es[k].y + dy) in Survivors(Moved(es, dy), bound)
  {
    var moved := Moved(es, dy);
    forall e | e in Survivors(moved, bound)
      ensures exists k :: 0 <= k < |es| && e == Entity(es[k].x, es[k].y + dy)
    {
      var k :| 0 <= k < |moved| && moved[k] == e;
    }
    forall k | 0 <= k < |es| && es[k].y + dy <= bound
      ensures Entity(es[k].x, es[k].y + dy) in Survivors(moved, bound)
    {
      assert moved[k] == Entity(es[k].x, es[k].y + dy);
      SurvivorsComplete(moved, bound, moved[k]);
    }
  }

  /** Motion never changes which lanes are occupied: lane positions are kept. */
  lemma AdvanceKeepsLanes(es: seq<Entity>, dy: real, bound: real, lanes: seq<int>)
    requires forall e :: e in es ==> e.x in lanes
    ensures forall e :: e in Survivors(Moved(es, dy), bound) ==> e.x in lanes
  {
    AdvanceMeaning(es, dy, bound);
    forall e | e in Survivors(Moved(es, dy), bound)
      ensures e.x in lanes
    {
      var k :| 0 <= k < |es| && e == Entity(es[k].x, es[k].y + dy);
      assert es[k] in es;
    }
  }

  /** Spawning an entity just before a tick's motion adds exactly that entity, moved by the
      same displacement, after the advanced old ones (unless it is already past the bound). */
  lemma SpawnThenAdvance(es: seq<Entity>, spawned: Entity, dy: real, bound: real)
    ensures Survivors(Moved(es + [spawned], dy), bound) ==
              Survivors(Moved(es, dy), bound) +
              (if spawned.y + dy > bound then [] else [Entity(spawned.x, spawned.y + dy)])
  {
    var moved := Entity(spawned.x, spawned.y + dy);
    assert Moved(es + [spawned], dy) == Moved(es, dy) + [moved];
    SurvivorsAppend(Moved(es, dy), [moved], bound);
    assert [moved][..0] == [];
  }

  /** The collection after a sequence of ticks whose displacements are `dys`. */
  function AdvanceTicks(es: seq<Entity>, dys: seq<real>, bound: real): seq<Entity>
  {
    if dys == [] then es
    else Survivors(Moved(AdvanceTicks(es, dys[..|dys| - 1], bound), dys[|dys| - 1]), bound)
  }

  function Sum(dys: seq<real>): real
  {
    if dys == [] then 0.0 else Sum(dys[..|dys| - 1]) + dys[|dys| - 1]
  }

  /** Nothing appears from nowhere: after any number of ticks, every remaining entity is
      an original one, in its lane, moved down by the total displacement. */
  lemma {:induction false} AdvanceTicksTrace(es: seq<Entity>, dys: seq<real>, bound: real)
    ensures forall e :: e in AdvanceTicks(es, dys, bound) ==>
              exists k :: 0 <= k < |es| && e == Entity(es[k].x, es[k].y + Sum(dys))
    decreases |dys|
  {
    if dys != [] {
      var init := dys[..|dys| - 1];
      var dy := dys[|dys| - 1];
      var before := AdvanceTicks(es, init, bound);
      AdvanceTicksTrace(es, init, bound);
      AdvanceMeaning(before, dy, bound);
      forall e | e in AdvanceTicks(es, dys, bound)
        ensures exists k :: 0 <= k < |es| && e == Entity(es[k].x, es[k].y + Sum(dys))
      {
        var j :| 0 <= j < |before| && e == Entity(before[j].x, before[j].y + dy);
        assert before[j] in before;
        var k :| 0 <= k < |es| && before[j] == Entity(es[k].x, es[k].y + Sum(init));
        assert e == Entity(es[k].x, es[k].y + Sum(dys));
      }
    }
  }

  /** A collection that is entirely past the bound is despawned entirely. */
  lemma {:induction false} SurvivorsNone(es: seq<Entity>, bound: real)
    requires forall k :: 0 <= k < |es| ==> es[k].y > bound
    ensures Survivors(es, bound) == []
    decreases |es|
  {
    if es != [] {
      SurvivorsNone(es[..|es| - 1], bound);
    }
  }

  /** Once every entity's total travel carries it past the bound, the collection is empty
      (removed entities never reappear). */
  lemma AllDespawned(es: seq<Entity>, dys: seq<real>, bound: real)
    requires |dys| >= 1
    requires forall k :: 0 <= k < |es| ==> es[k].y + Sum(dys) > bound
    ensures AdvanceTicks(es, dys, bound) == []
  {
    var init := dys[..|dys| - 1];
    var dy := dys[|dys| - 1];
    var before := AdvanceTicks(es, init, bound);
    AdvanceTicksTrace(es, init, bound);
    var moved := Moved(before, dy);
    forall j | 0 <= j < |moved|
      ensures moved[j].y > bound
    {
      assert before[j] in before;
      var k :| 0 <= k < |es| && before[j] == Entity(es[k].x, es[k].y + Sum(init));
    }
    SurvivorsNone(moved, bound);
  }
}
