/** The pure building blocks of the scene-collection manager: the `map`,
    `filter`, `reduce` and spread expressions that compute each new scene list,
    and what they preserve. */
module SceneList {
  import opened Wrappers
  import opened StoryboardTypes
  import opened Seqs

  /** The `reduce((sum, scene) => sum + scene.duration, 0)` over a scene list. */
  function TotalDuration(scenes: seq<Scene>): (r: nat)
    ensures scenes == [] ==> r == 0
    ensures forall i :: 0 <= i < |scenes| ==> scenes[i].duration <= r
  {
    if scenes == [] then 0 else scenes[0].duration + TotalDuration(scenes[1..])
  }

  lemma {:induction false} TotalDurationConcat(a: seq<Scene>, b: seq<Scene>)
    ensures TotalDuration(a + b) == TotalDuration(a) + TotalDuration(b)
  {
    if a == [] {
      assert a + b == b;
    } else {
      assert (a + b)[1..] == a[1..] + b;
      TotalDurationConcat(a[1..], b);
    }
  }

  /** Two lists whose scenes have the same durations index by index have the same total. */
  lemma {:induction false} TotalDurationPointwise(a: seq<Scene>, b: seq<Scene>)
    requires |a| == |b|
    requires forall i :: 0 <= i < |a| ==> a[i].duration == b[i].duration
    ensures TotalDuration(a) == TotalDuration(b)
  {
    if a != [] {
      TotalDurationPointwise(a[1..], b[1..]);
    }
  }

  /** Every scene's `position` is its index in the list. */
  predicate Numbered(scenes: seq<Scene>)
  {
    forall i :: 0 <= i < |scenes| ==> scenes[i].position == i
  }

  /** No two scenes of the list share an id. */
  predicate UniqueIds(scenes: seq<Scene>)
  {
    forall i, j :: 0 <= i < |scenes| && 0 <= j < |scenes| && scenes[i].id == scenes[j].id ==> i == j
  }

  /** The ids present in a list. */
  function Ids(scenes: seq<Scene>): set<string>
  {
    set i | 0 <= i < |scenes| :: scenes[i].id
  }

  /** Appending a scene adds exactly its id. */
  lemma IdsAppend(scenes: seq<Scene>, x: Scene)
    ensures Ids(scenes + [x]) == Ids(scenes) + {x.id}
  {
    var t := scenes + [x];
    assert t[|scenes|] == x;
    forall id | id in Ids(t) ensures id in Ids(scenes) + {x.id} {
      var i :| 0 <= i < |t| && t[i].id == id;
      if i < |scenes| { assert t[i] == scenes[i]; }
    }
    forall id | id in Ids(scenes) ensures id in Ids(t) {
      var i :| 0 <= i < |scenes| && scenes[i].id == id;
      assert t[i] == scenes[i];
    }
  }

  /** `map((scene, index) => ({...scene, position: index}))`: the same scenes
      with positions renumbered densely from zero. */
  function Renumber(scenes: seq<Scene>): (r: seq<Scene>)
    ensures |r| == |scenes| && Numbered(r)
    ensures forall i :: 0 <= i < |r| ==> r[i].(position := scenes[i].position) == scenes[i]
  {
    seq(|scenes|, i requires 0 <= i < |scenes| => scenes[i].(position := i))
  }

  /** Renumbering keeps the ids, their uniqueness and the total duration, and
      changes nothing in a list that is already numbered. */
  lemma RenumberPreserves(scenes: seq<Scene>)
    ensures Ids(Renumber(scenes)) == Ids(scenes)
    ensures UniqueIds(scenes) ==> UniqueIds(Renumber(scenes))
    ensures TotalDuration(Renumber(scenes)) == TotalDuration(scenes)
    ensures Numbered(scenes) ==> Renumber(scenes) == scenes
  {
    var r := Renumber(scenes);
    assert forall i :: 0 <= i < |r| ==> r[i].id == scenes[i].id && r[i].duration == scenes[i].duration;
    TotalDurationPointwise(r, scenes);
  }

  /** The scene matching `id` as the source's `find` returns it. */
  function FindById(scenes: seq<Scene>, id: string): (r: Option<Scene>)
    ensures r.None? <==> id !in Ids(scenes)
    ensures r.Some? ==> r.value.id == id && r.value in scenes
  {
    Find(scenes, (sc: Scene) => sc.id == id)
  }

  /** Whether a field is present in an update payload (`Partial<Scene>`), and
      with which value. An optional scene field carries an `Option` value, since
      a payload that names the field with `undefined` clears it. */
  datatype Field<T> = Keep | Put(value: T) {
    function Over(current: T): T
    {
      match this
      case Keep => current
      case Put(v) => v
    }
  }

  /** The fields callers send to "update": what the scene editor saves and the
      image URL the asset library attaches. `id` and `position` are not in it. */
  datatype SceneUpdate = SceneUpdate(
    title: Field<string>,
    description: Field<string>,
    imageUrl: Field<Option<string>>,
    duration: Field<nat>,
    notes: Field<Option<string>>,
    shotType: Field<Option<ShotType>>,
    cameraMovement: Field<Option<CameraMovement>>,
    lighting: Field<Option<Lighting>>)

  const NoChange := SceneUpdate(Keep, Keep, Keep, Keep, Keep, Keep, Keep, Keep)

  /** The spread `{...scene, ...updates}`: supplied fields are replaced, every
      other field is left as it was. */
  function ApplyUpdate(s: Scene, u: SceneUpdate): (r: Scene)
    ensures r.id == s.id && r.position == s.position
    ensures u.title.Keep? ==> r.title == s.title
    ensures u.title.Put? ==> r.title == u.title.value
    ensures u.description.Keep? ==> r.description == s.description
    ensures u.description.Put? ==> r.description == u.description.value
    ensures u.imageUrl.Keep? ==> r.imageUrl == s.imageUrl
    ensures u.imageUrl.Put? ==> r.imageUrl == u.imageUrl.value
    ensures u.duration.Keep? ==> r.duration == s.duration
    ensures u.duration.Put? ==> r.duration == u.duration.value
    ensures u.notes.Keep? ==> r.notes == s.notes
    ensures u.notes.Put? ==> r.notes == u.notes.value
    ensures u.shotType.Keep? ==> r.shotType == s.shotType
    ensures u.shotType.Put? ==> r.shotType == u.shotType.value
    ensures u.cameraMovement.Keep? ==> r.cameraMovement == s.cameraMovement
    ensures u.cameraMovement.Put? ==> r.cameraMovement == u.cameraMovement.value
    ensures u.lighting.Keep? ==> r.lighting == s.lighting
    ensures u.lighting.Put? ==> r.lighting == u.lighting.value
  {
    s.(title := u.title.Over(s.title),
       description := u.description.Over(s.description),
       imageUrl := u.imageUrl.Over(s.imageUrl),
       duration := u.duration.Over(s.duration),
       notes := u.notes.Over(s.notes),
       shotType := u.shotType.Over(s.shotType),
       cameraMovement := u.cameraMovement.Over(s.cameraMovement),
       lighting := u.lighting.Over(s.lighting))
  }

  /** Overlaying the same payload twice is the same as once; the empty payload changes nothing. */
  lemma ApplyUpdateIdempotent(s: Scene, u: SceneUpdate)
    ensures ApplyUpdate(ApplyUpdate(s, u), u) == ApplyUpdate(s, u)
    ensures ApplyUpdate(s, NoChange) == s
  {
  }

  /** `map(scene => scene.id === id ? {...scene, ...updates} : scene)`. */
  function UpdateById(scenes: seq<Scene>, id: string, u: SceneUpdate): (r: seq<Scene>)
    ensures |r| == |scenes|
    ensures forall i :: 0 <= i < |r| && scenes[i].id == id ==> r[i] == ApplyUpdate(scenes[i], u)
    ensures forall i :: 0 <= i < |r| && scenes[i].id != id ==> r[i] == scenes[i]
    ensures Ids(r) == Ids(scenes)
    ensures Numbered(scenes) ==> Numbered(r)
    ensures UniqueIds(scenes) ==> UniqueIds(r)
    ensures id !in Ids(scenes) ==> r == scenes
  {
    var r := seq(|scenes|, i requires 0 <= i < |scenes| =>
                 if scenes[i].id == id then ApplyUpdate(scenes[i], u) else scenes[i]);
    assert forall i :: 0 <= i < |r| ==> r[i].id == scenes[i].id;
    r
  }

  /** Replacing the scene at index `k` changes the total by the difference of the two durations. */
  lemma {:induction false} TotalDurationReplace(scenes: seq<Scene>, k: nat, x: Scene)
    requires k < |scenes|
    ensures TotalDuration(scenes[k := x]) + scenes[k].duration == TotalDuration(scenes) + x.duration
  {
    if k == 0 {
      assert scenes[k := x][1..] == scenes[1..];
    } else {
      assert scenes[k := x][1..] == scenes[1..][k - 1 := x];
      TotalDurationReplace(scenes[1..], k - 1, x);
    }
  }

  /** With unique ids, updating by the id of the scene at index `k` rewrites
      that one scene, so the total changes by exactly the change of its duration. */
  lemma UpdateByIdTotal(scenes: seq<Scene>, k: nat, u: SceneUpdate)
    requires UniqueIds(scenes) && k < |scenes|
    ensures UpdateById(scenes, scenes[k].id, u) == scenes[k := ApplyUpdate(scenes[k], u)]
    ensures TotalDuration(UpdateById(scenes, scenes[k].id, u)) + scenes[k].duration
         == TotalDuration(scenes) + ApplyUpdate(scenes[k], u).duration
  {
    var r := UpdateById(scenes, scenes[k].id, u);
    forall i | 0 <= i < |r|
      ensures r[i] == scenes[k := ApplyUpdate(scenes[k], u)][i]
    {
      if i != k {
        assert scenes[i].id != scenes[k].id;
      }
    }
    TotalDurationReplace(scenes, k, ApplyUpdate(scenes[k], u));
  }

  /** `filter(scene => scene.id !== id)`. */
  function RemoveId(scenes: seq<Scene>, id: string): (r: seq<Scene>)
    ensures forall sc :: sc in r <==> sc in scenes && sc.id != id
    ensures forall sc {:trigger multiset(r)[sc]} :: multiset(r)[sc] == if sc.id != id then multiset(scenes)[sc] else 0
    ensures IsSubsequence(r, scenes)
    ensures id !in Ids(r)
  {
    Filter(scenes, (sc: Scene) => sc.id != id)
  }

  /** Removing an id that is absent removes nothing. */
  lemma RemoveAbsentId(scenes: seq<Scene>, id: string)
    requires id !in Ids(scenes)
    ensures RemoveId(scenes, id) == scenes
  {
    FilterKeepsAll(scenes, (sc: Scene) => sc.id != id);
  }

  /** One step of the filter: the first scene is kept unless it has the id. */
  lemma RemoveIdStep(scenes: seq<Scene>, id: string)
    requires scenes != []
    ensures RemoveId(scenes, id)
         == (if scenes[0].id != id then [scenes[0]] else []) + RemoveId(scenes[1..], id)
  {
  }

  /** With unique ids, removing the id of the scene at index `k` removes exactly that scene. */
  lemma {:induction false} RemoveIdAt(scenes: seq<Scene>, k: nat)
    requires UniqueIds(scenes) && k < |scenes|
    ensures RemoveId(scenes, scenes[k].id) == Without(scenes, k)
  {
    var id := scenes[k].id;
    var tail := scenes[1..];
    RemoveIdStep(scenes, id);
    if k == 0 {
      HeadNotInTail(scenes);
      RemoveAbsentId(tail, id);
      assert Without(scenes, k) == tail;
    } else {
      UniqueIdsTail(scenes);
      assert tail[k - 1] == scenes[k];
      RemoveIdAt(tail, k - 1);
      assert Without(scenes, k) == [scenes[0]] + Without(tail, k - 1);
    }
  }

  /** Under unique ids, the first scene's id does not occur again. */
  lemma HeadNotInTail(scenes: seq<Scene>)
    requires UniqueIds(scenes) && scenes != []
    ensures scenes[0].id !in Ids(scenes[1..])
  {
    var tail := scenes[1..];
    forall j | 0 <= j < |tail| ensures tail[j].id != scenes[0].id {
      assert tail[j] == scenes[j + 1];
    }
  }

  /** Unique ids survive dropping the first scene. */
  lemma UniqueIdsTail(scenes: seq<Scene>)
    requires UniqueIds(scenes) && scenes != []
    ensures UniqueIds(scenes[1..])
  {
    var tail := scenes[1..];
    forall i, j | 0 <= i < |tail| && 0 <= j < |tail| && tail[i].id == tail[j].id
      ensures i == j
    {
      assert tail[i] == scenes[i + 1] && tail[j] == scenes[j + 1];
    }
  }

  /** Deleting keeps ids unique and lowers the total by the removed scene's duration. */
  lemma RemoveIdTotal(scenes: seq<Scene>, k: nat)
    requires UniqueIds(scenes) && k < |scenes|
    ensures |RemoveId(scenes, scenes[k].id)| == |scenes| - 1
    ensures UniqueIds(RemoveId(scenes, scenes[k].id))
    ensures TotalDuration(RemoveId(scenes, scenes[k].id)) + scenes[k].duration == TotalDuration(scenes)
  {
    RemoveIdAt(scenes, k);
    var r := Without(scenes, k);
    forall i, j | 0 <= i < |r| && 0 <= j < |r| && r[i].id == r[j].id
      ensures i == j
    {
      WithoutAt(scenes, k, i);
      WithoutAt(scenes, k, j);
    }
    TotalDurationWithout(scenes, k);
  }

  /** Deleting the scene at index `k` and renumbering: one scene fewer, the
      total lower by its duration, and the others in order at their new indices. */
  lemma RemoveRenumberAt(scenes: seq<Scene>, k: nat)
    requires UniqueIds(scenes) && k < |scenes|
    ensures |Renumber(RemoveId(scenes, scenes[k].id))| == |scenes| - 1
    ensures TotalDuration(Renumber(RemoveId(scenes, scenes[k].id))) + scenes[k].duration == TotalDuration(scenes)
    ensures forall i :: 0 <= i < |scenes| - 1 ==>
              Renumber(RemoveId(scenes, scenes[k].id))[i] == Without(scenes, k)[i].(position := i)
  {
    var filtered := RemoveId(scenes, scenes[k].id);
    RenumberPreserves(filtered);
    RemoveIdTotal(scenes, k);
    RemoveIdAt(scenes, k);
  }

  /** Taking out the scene at index `k` lowers the total by its duration. */
  lemma {:induction false} TotalDurationWithout(scenes: seq<Scene>, k: nat)
    requires k < |scenes|
    ensures TotalDuration(Without(scenes, k)) + scenes[k].duration == TotalDuration(scenes)
  {
    if k == 0 {
      assert Without(scenes, k) == scenes[1..];
    } else {
      assert Without(scenes, k) == [scenes[0]] + Without(scenes[1..], k - 1);
      TotalDurationWithout(scenes[1..], k - 1);
    }
  }

  /** Deleting any id keeps the remaining ids unique. */
  lemma RemoveIdKeepsUnique(scenes: seq<Scene>, id: string)
    requires UniqueIds(scenes)
    ensures UniqueIds(RemoveId(scenes, id))
  {
    if id !in Ids(scenes) {
      RemoveAbsentId(scenes, id);
    } else {
      var k :| 0 <= k < |scenes| && scenes[k].id == id;
      RemoveIdTotal(scenes, k);
    }
  }

  /** A move keeps the total duration. */
  lemma MoveTotal(scenes: seq<Scene>, from: nat, to: nat)
    requires from < |scenes| && to < |scenes|
    ensures TotalDuration(MoveElement(scenes, from, to)) == TotalDuration(scenes)
  {
    var r := MoveElement(scenes, from, to);
    TotalDurationWithout(r, to);
    TotalDurationWithout(scenes, from);
  }

  /** A move keeps the set of ids and their uniqueness. */
  lemma MoveIds(scenes: seq<Scene>, from: nat, to: nat)
    requires from < |scenes| && to < |scenes|
    ensures Ids(MoveElement(scenes, from, to)) == Ids(scenes)
    ensures UniqueIds(scenes) ==> UniqueIds(MoveElement(scenes, from, to))
  {
    MoveIdsSet(scenes, from, to);
    if UniqueIds(scenes) {
      MoveIdsUnique(scenes, from, to);
    }
  }

  /** Each scene of a moved list is the original scene at its source index. */
  lemma MoveFrom(scenes: seq<Scene>, from: nat, to: nat)
    requires from < |scenes| && to < |scenes|
    ensures forall i :: 0 <= i < |scenes| ==>
              MoveSource(from, to, i) < |scenes| &&
              MoveElement(scenes, from, to)[i] == scenes[MoveSource(from, to, i)]
  {
    forall i | 0 <= i < |scenes|
      ensures MoveSource(from, to, i) < |scenes|
      ensures MoveElement(scenes, from, to)[i] == scenes[MoveSource(from, to, i)]
    {
      MoveElementAt(scenes, from, to, i);
    }
  }

  lemma MoveIdsSet(scenes: seq<Scene>, from: nat, to: nat)
    requires from < |scenes| && to < |scenes|
    ensures Ids(MoveElement(scenes, from, to)) == Ids(scenes)
  {
    var r := MoveElement(scenes, from, to);
    MoveFrom(scenes, from, to);
    forall j | 0 <= j < |scenes|
      ensures scenes[j].id in Ids(r)
    {
      var i := if j == from then to
               else if from < to && from < j <= to then j - 1
               else if to < from && to <= j < from then j + 1
               else j;
      assert MoveSource(from, to, i) == j;
      assert r[i] == scenes[j];
    }
  }

  lemma MoveIdsUnique(scenes: seq<Scene>, from: nat, to: nat)
    requires from < |scenes| && to < |scenes| && UniqueIds(scenes)
    ensures UniqueIds(MoveElement(scenes, from, to))
  {
    var r := MoveElement(scenes, from, to);
    MoveFrom(scenes, from, to);
    forall i, j | 0 <= i < |r| && 0 <= j < |r| && r[i].id == r[j].id
      ensures i == j
    {
      MoveSourceInjective(from, to, i, j);
    }
  }

  /** The scenes with their positions blanked, for comparing contents regardless of numbering. */
  function Unpositioned(scenes: seq<Scene>): seq<Scene>
  {
    seq(|scenes|, i requires 0 <= i < |scenes| => scenes[i].(position := 0))
  }

  /** Reordering and renumbering is a permutation of the scenes, positions aside. */
  lemma MoveRenumberPermutes(scenes: seq<Scene>, from: nat, to: nat)
    requires from < |scenes| && to < |scenes|
    ensures multiset(Unpositioned(Renumber(MoveElement(scenes, from, to)))) == multiset(Unpositioned(scenes))
  {
    var m := MoveElement(scenes, from, to);
    var u := Unpositioned(scenes);
    forall i | 0 <= i < |m|
      ensures Unpositioned(Renumber(m))[i] == MoveElement(u, from, to)[i]
    {
      MoveElementAt(scenes, from, to, i);
      MoveElementAt(u, from, to, i);
    }
    assert Unpositioned(Renumber(m)) == MoveElement(u, from, to);
    MovePermutes(u, from, to);
  }
}
