/** Fear accumulation (`update_fear`): every trigger sphere that contains the
    player adds a fixed increment; nothing in this revision lowers fear. */
module Fear {
  import opened Math
  import opened Components

  /** The increment added per containing sphere per tick. */
  const FEAR_INCREMENT: real := 0.1

  datatype Option<T> = None | Some(value: T)

  /** A sphere entity as the query yields it: its translation and its
      `SphereOfTear` component. */
  datatype SphereEntity = SphereEntity(translation: Vec3, sphere: SphereOfTear)

  /** An entry of the query frightens the player when it carries a sphere
      that contains the player's position. */
  predicate Frightens(e: Option<SphereEntity>, point: Vec3) {
    e.Some? && PointInSphere(e.value.sphere, e.value.translation, point)
  }

  /** How many entries of `entities` frighten the player at `point`. */
  function InsideCount(entities: seq<Option<SphereEntity>>, point: Vec3): nat
  {
    if entities == [] then 0
    else
      InsideCount(entities[..|entities| - 1], point)
      + (if Frightens(entities[|entities| - 1], point) then 1 else 0)
  }

  /** At most one increment per entity. */
  lemma {:induction false} InsideCountAtMostLength(entities: seq<Option<SphereEntity>>, point: Vec3)
    ensures InsideCount(entities, point) <= |entities|
  {
    if entities != [] {
      InsideCountAtMostLength(entities[..|entities| - 1], point);
    }
  }

  /** The count splits over concatenation. */
  lemma {:induction false} InsideCountAppend(a: seq<Option<SphereEntity>>, b: seq<Option<SphereEntity>>, point: Vec3)
    ensures InsideCount(a + b, point) == InsideCount(a, point) + InsideCount(b, point)
    decreases |b|
  {
    if b == [] {
      assert a + b == a;
    } else {
      var b' := b[..|b| - 1];
      assert (a + b)[..|a + b| - 1] == a + b';
      InsideCountAppend(a, b', point);
    }
  }

  /** The query's iteration order does not matter: moving a block of
      entities to the front leaves the count as it was. */
  lemma InsideCountOrderFree(a: seq<Option<SphereEntity>>, b: seq<Option<SphereEntity>>, point: Vec3)
    ensures InsideCount(a + b, point) == InsideCount(b + a, point)
  {
    InsideCountAppend(a, b, point);
    InsideCountAppend(b, a, point);
  }

  /** Taking one entry out of the query lowers the count by that entry's
      own contribution. */
  lemma InsideCountRemove(b: seq<Option<SphereEntity>>, j: nat, point: Vec3)
    requires j < |b|
    ensures InsideCount(b, point) ==
      InsideCount(b[..j] + b[j + 1..], point) + (if Frightens(b[j], point) then 1 else 0)
  {
    assert b == b[..j] + ([b[j]] + b[j + 1..]);
    InsideCountAppend(b[..j], [b[j]] + b[j + 1..], point);
    InsideCountAppend([b[j]], b[j + 1..], point);
    assert [b[j]][..0] == [];
    InsideCountAppend(b[..j], b[j + 1..], point);
  }

  /** The query's iteration order is unspecified, and it does not matter:
      any reordering of the entries gives the same count. */
  lemma {:induction false} InsideCountPermutation(a: seq<Option<SphereEntity>>, b: seq<Option<SphereEntity>>, point: Vec3)
    requires multiset(a) == multiset(b)
    ensures InsideCount(a, point) == InsideCount(b, point)
    decreases |a|
  {
    if a == [] {
      assert |b| == |multiset(b)| == 0;
    } else {
      var x := a[|a| - 1];
      var a' := a[..|a| - 1];
      assert a == a' + [x];
      assert x in multiset(b);
      var j :| 0 <= j < |b| && b[j] == x;
      var b' := b[..j] + b[j + 1..];
      assert b == b[..j] + [b[j]] + b[j + 1..];
      assert multiset(a') == multiset(a) - multiset{x};
      assert multiset(b') == multiset(b) - multiset{x};
      InsideCountPermutation(a', b', point);
      InsideCountRemove(b, j, point);
    }
  }

  /** Exactly the entries that frighten count: the count is the full length
      when every entry frightens, and zero when none does. */
  lemma {:induction false} InsideCountExtremes(entities: seq<Option<SphereEntity>>, point: Vec3)
    ensures (forall i :: 0 <= i < |entities| ==> Frightens(entities[i], point)) ==> InsideCount(entities, point) == |entities|
    ensures (forall i :: 0 <= i < |entities| ==> !Frightens(entities[i], point)) ==> InsideCount(entities, point) == 0
  {
    if entities != [] {
      var front := entities[..|entities| - 1];
      assert forall i :: 0 <= i < |front| ==> front[i] == entities[i];
      InsideCountExtremes(front, point);
    }
  }

  /** The fear after one tick: never lower than before, and at most one
      increment per entity higher. */
  function FearAfter(fear: real, entities: seq<Option<SphereEntity>>, point: Vec3): (r: real)
    ensures fear <= r <= fear + FEAR_INCREMENT * (|entities| as real)
  {
    InsideCountAtMostLength(entities, point);
    fear + FEAR_INCREMENT * (InsideCount(entities, point) as real)
  }

  /** A sphere storing 4.0 at the origin frightens a player at squared
      distance 3.0 by one increment. */
  lemma FearScenario(fear: real)
    ensures FearAfter(fear, [Some(SphereEntity(ZERO3, SphereOfTear(4.0)))], Vec3(1.0, 1.0, 1.0)) == fear + FEAR_INCREMENT
  {
  }
}
