/** The storyboard hook: a state holder for one project and the id of the
    selected scene, with the five scene operations that replace that state. */
module Storyboard {
  import opened Wrappers
  import opened StoryboardTypes
  import opened Seqs
  import opened SceneList

  /** The suffix "duplicate" appends to the copied title. */
  const CopySuffix := " (Copy)"

  /** Moves the element at `from` to index `to` in place, shifting the elements
      in between by one: the two `splice` calls on the copied array. */
  method MoveInPlace<T>(a: array<T>, from: nat, to: nat)
    requires from < a.Length && to < a.Length
    modifies a
    ensures a[..] == MoveElement(old(a[..]), from, to)
  {
    ghost var s := a[..];
    var moved := a[from];
    var i := from;
    if from < to {
      while i < to
        invariant from <= i <= to
        invariant |s| == a.Length
        invariant forall j :: 0 <= j < from || i <= j < a.Length ==> a[j] == s[j]
        invariant forall j :: from <= j < i ==> a[j] == s[j + 1]
      {
        a[i] := a[i + 1];
        i := i + 1;
      }
    } else {
      while i > to
        invariant to <= i <= from
        invariant |s| == a.Length
        invariant forall j :: 0 <= j <= i || from < j < a.Length ==> a[j] == s[j]
        invariant forall j :: i < j <= from ==> a[j] == s[j - 1]
      {
        a[i] := a[i - 1];
        i := i - 1;
      }
    }
    a[to] := moved;
    forall k | 0 <= k < a.Length
      ensures a[k] == MoveElement(s, from, to)[k]
    {
      MoveElementAt(s, from, to, k);
    }
  }

  /** The project header fields that no scene operation touches. */
  predicate SameHeader(p: StoryboardProject, q: StoryboardProject)
  {
    p.id == q.id && p.title == q.title && p.description == q.description && p.createdAt == q.createdAt
  }

  class StoryboardManager {
    var project: StoryboardProject
    var selectedScene: Option<string>

    /** Positions are dense indices, ids are unique, the total is the sum of
        the durations, and the clock never runs behind the creation time. */
    ghost predicate Valid()
      reads this
    {
      && Numbered(project.scenes)
      && UniqueIds(project.scenes)
      && project.totalDuration == TotalDuration(project.scenes)
      && project.createdAt <= project.updatedAt
    }

    /** The initial state: an empty project and no selection. */
    constructor ()
      ensures Valid()
      ensures project == StoryboardProject("1", "My Storyboard", "A new creative project", [], 0, 0, 0)
      ensures selectedScene == None
    {
      project := StoryboardProject("1", "My Storyboard", "A new creative project", [], 0, 0, 0);
      selectedScene := None;
    }

    /** Appends the draft as a new last scene under the generated id `newId`,
        which is returned. */
    method AddScene(draft: SceneDraft, newId: string) returns (id: string)
      requires Valid()
      requires newId !in Ids(project.scenes)
      modifies this
      ensures Valid()
      ensures id == newId && id in Ids(project.scenes)
      ensures project.scenes == old(project.scenes) + [FromDraft(draft, newId, |old(project.scenes)|)]
      ensures project.totalDuration == old(project.totalDuration) + draft.duration
      ensures project.updatedAt > old(project.updatedAt)
      ensures SameHeader(project, old(project)) && selectedScene == old(selectedScene)
    {
      var scene := FromDraft(draft, newId, |project.scenes|);
      TotalDurationConcat(project.scenes, [scene]);
      assert [scene][1..] == [];
      assert (project.scenes + [scene])[|project.scenes|] == scene;
      project := project.(scenes := project.scenes + [scene],
                          totalDuration := project.totalDuration + draft.duration,
                          updatedAt := project.updatedAt + 1);
      id := newId;
    }

    /** Overlays `u` on every scene whose id is `id` and re-sums the total.
        An unknown id leaves the scenes and the total as they were. */
    method UpdateScene(id: string, u: SceneUpdate)
      requires Valid()
      modifies this
      ensures Valid()
      ensures project.scenes == UpdateById(old(project.scenes), id, u)
      ensures id !in Ids(old(project.scenes)) ==>
                project.scenes == old(project.scenes) && project.totalDuration == old(project.totalDuration)
      ensures forall k :: 0 <= k < |old(project.scenes)| && old(project.scenes)[k].id == id ==>
                project.totalDuration + old(project.scenes)[k].duration
                == old(project.totalDuration) + ApplyUpdate(old(project.scenes)[k], u).duration
      ensures project.updatedAt > old(project.updatedAt)
      ensures SameHeader(project, old(project)) && selectedScene == old(selectedScene)
    {
      var scenes := UpdateById(project.scenes, id, u);
      forall k | 0 <= k < |project.scenes| && project.scenes[k].id == id
        ensures TotalDuration(scenes) + project.scenes[k].duration
                == TotalDuration(project.scenes) + ApplyUpdate(project.scenes[k], u).duration
      {
        UpdateByIdTotal(project.scenes, k, u);
      }
      project := project.(scenes := scenes,
                          totalDuration := TotalDuration(scenes),
                          updatedAt := project.updatedAt + 1);
    }

    /** Removes the scene with id `id`, renumbers the rest, re-sums the total,
        and clears the selection exactly when it was the removed id. */
    method DeleteScene(id: string)
      requires Valid()
      modifies this
      ensures Valid()
      ensures project.scenes == Renumber(RemoveId(old(project.scenes), id))
      ensures id !in Ids(project.scenes)
      ensures id !in Ids(old(project.scenes)) ==>
                project.scenes == old(project.scenes) && project.totalDuration == old(project.totalDuration)
      ensures forall k :: 0 <= k < |old(project.scenes)| && old(project.scenes)[k].id == id ==>
                |project.scenes| == |old(project.scenes)| - 1 &&
                project.totalDuration + old(project.scenes)[k].duration == old(project.totalDuration) &&
                forall i :: 0 <= i < |project.scenes| ==>
                  project.scenes[i] == Without(old(project.scenes), k)[i].(position := i)
      ensures selectedScene == if old(selectedScene) == Some(id) then None else old(selectedScene)
      ensures project.updatedAt > old(project.updatedAt)
      ensures SameHeader(project, old(project))
    {
      var filtered := RemoveId(project.scenes, id);
      var scenes := Renumber(filtered);
      RenumberPreserves(filtered);
      if id !in Ids(project.scenes) {
        RemoveAbsentId(project.scenes, id);
        RenumberPreserves(project.scenes);
      }
      forall k | 0 <= k < |project.scenes| && project.scenes[k].id == id
        ensures |scenes| == |project.scenes| - 1
        ensures TotalDuration(scenes) + project.scenes[k].duration == TotalDuration(project.scenes)
        ensures forall i :: 0 <= i < |scenes| ==> scenes[i] == Without(project.scenes, k)[i].(position := i)
      {
        RemoveRenumberAt(project.scenes, k);
      }
      RemoveIdKeepsUnique(project.scenes, id);
      project := project.(scenes := scenes,
                          totalDuration := TotalDuration(scenes),
                          updatedAt := project.updatedAt + 1);
      if selectedScene == Some(id) {
        selectedScene := None;
      }
    }

    /** Moves the scene at index `from` to index `to` (array-splice semantics)
        and renumbers; the total is not touched. */
    method ReorderScenes(from: nat, to: nat)
      requires Valid()
      requires from < |project.scenes| && to < |project.scenes|
      modifies this
      ensures Valid()
      ensures project.scenes == Renumber(MoveElement(old(project.scenes), from, to))
      ensures project.scenes[to].(position := from) == old(project.scenes)[from]
      ensures multiset(Unpositioned(project.scenes)) == multiset(Unpositioned(old(project.scenes)))
      ensures project.totalDuration == old(project.totalDuration)
      ensures project.updatedAt > old(project.updatedAt)
      ensures SameHeader(project, old(project)) && selectedScene == old(selectedScene)
    {
      var scenes := project.scenes;
      var result := new Scene[|scenes|](i requires 0 <= i < |scenes| => scenes[i]);
      assert result[..] == scenes;
      MoveInPlace(result, from, to);
      var moved := result[..];
      MoveTotal(scenes, from, to);
      MoveIds(scenes, from, to);
      RenumberPreserves(moved);
      MoveRenumberPermutes(scenes, from, to);
      project := project.(scenes := Renumber(moved), updatedAt := project.updatedAt + 1);
    }

    /** Appends a copy of the first scene with id `id`, titled with " (Copy)",
        under the generated id `newId`, and returns that id; an unknown id
        returns nothing and changes nothing. */
    method DuplicateScene(id: string, newId: string) returns (r: Option<string>)
      requires Valid()
      requires newId !in Ids(project.scenes)
      modifies this
      ensures Valid()
      ensures id !in Ids(old(project.scenes)) ==> r == None && project == old(project)
      ensures id in Ids(old(project.scenes)) ==>
                var original := FindById(old(project.scenes), id).value;
                && r == Some(newId)
                && project.scenes == old(project.scenes) +
                     [original.(id := newId, title := original.title + CopySuffix,
                                position := |old(project.scenes)|)]
                && project.totalDuration == old(project.totalDuration) + original.duration
                && project.updatedAt > old(project.updatedAt)
      ensures SameHeader(project, old(project)) && selectedScene == old(selectedScene)
    {
      var found := FindById(project.scenes, id);
      if found.None? {
        return None;
      }
      var original := found.value;
      var copy := original.(id := newId, title := original.title + CopySuffix,
                            position := |project.scenes|);
      TotalDurationConcat(project.scenes, [copy]);
      assert [copy][1..] == [];
      assert (project.scenes + [copy])[|project.scenes|] == copy;
      project := project.(scenes := project.scenes + [copy],
                          totalDuration := project.totalDuration + copy.duration,
                          updatedAt := project.updatedAt + 1);
      r := Some(newId);
    }

    /** Adds a batch of drafts one after the other, as the script generator's
        callback does, each under its own generated id. */
    method AddScenes(drafts: seq<SceneDraft>, newIds: seq<string>)
      requires Valid()
      requires |newIds| == |drafts|
      requires forall k :: 0 <= k < |newIds| ==> newIds[k] !in Ids(project.scenes)
      requires forall k, l :: 0 <= k < |newIds| && 0 <= l < |newIds| && newIds[k] == newIds[l] ==> k == l
      modifies this
      ensures Valid()
      ensures project.scenes == AppendDrafts(old(project.scenes), drafts, newIds)
      ensures project.updatedAt >= old(project.updatedAt)
      ensures SameHeader(project, old(project)) && selectedScene == old(selectedScene)
    {
      var i := 0;
      while i < |drafts|
        invariant 0 <= i <= |drafts|
        invariant Valid()
        invariant AppendDrafts(project.scenes, drafts[i..], newIds[i..]) == AppendDrafts(old(project.scenes), drafts, newIds)
        invariant forall k :: i <= k < |newIds| ==> newIds[k] !in Ids(project.scenes)
        invariant project.updatedAt >= old(project.updatedAt)
        invariant SameHeader(project, old(project)) && selectedScene == old(selectedScene)
      {
        ghost var before := project.scenes;
        var _ := AddScene(drafts[i], newIds[i]);
        IdsAppend(before, FromDraft(drafts[i], newIds[i], |before|));
        AppendDraftsStep(before, drafts[i..], newIds[i..]);
        assert drafts[i..][1..] == drafts[i + 1..] && newIds[i..][1..] == newIds[i + 1..];
        i := i + 1;
      }
      assert drafts[i..] == [] && newIds[i..] == [];
    }

    /** Selects a scene, or clears the selection. */
    method SetSelectedScene(selection: Option<string>)
      modifies this
      ensures selectedScene == selection && project == old(project)
    {
      selectedScene := selection;
    }

    /** Renames the project; scenes and total are untouched. */
    method SetTitle(title: string)
      requires Valid()
      modifies this
      ensures Valid()
      ensures project == old(project).(title := title, updatedAt := old(project.updatedAt) + 1)
      ensures selectedScene == old(selectedScene)
    {
      project := project.(title := title, updatedAt := project.updatedAt + 1);
    }
  }

  /** One step of a batch: the first draft is appended, then the rest. */
  lemma AppendDraftsStep(scenes: seq<Scene>, drafts: seq<SceneDraft>, newIds: seq<string>)
    requires |newIds| == |drafts| > 0
    ensures AppendDrafts(scenes, drafts, newIds)
         == AppendDrafts(scenes + [FromDraft(drafts[0], newIds[0], |scenes|)], drafts[1..], newIds[1..])
  {
  }

  /** The batch add as `handleScenesGenerated` runs it: every `addScene` call of
      one batch computes its position from the scene count captured before the
      batch, so each draft gets that same position. */
  function AppendDraftsStale(scenes: seq<Scene>, drafts: seq<SceneDraft>, newIds: seq<string>): (r: seq<Scene>)
    requires |newIds| == |drafts|
    ensures |r| == |scenes| + |drafts|
    ensures r[..|scenes|] == scenes
    ensures forall k :: 0 <= k < |drafts| ==>
              DraftOf(r[|scenes| + k]) == drafts[k] && r[|scenes| + k].id == newIds[k] &&
              r[|scenes| + k].position == |scenes|
  {
    scenes + seq(|drafts|, k requires 0 <= k < |drafts| => FromDraft(drafts[k], newIds[k], |scenes|))
  }

  /** Any batch of two or more drafts breaks the position numbering. */
  lemma StaleBatchBreaksNumbering(scenes: seq<Scene>, drafts: seq<SceneDraft>, newIds: seq<string>)
    requires |newIds| == |drafts| >= 2
    ensures !Numbered(AppendDraftsStale(scenes, drafts, newIds))
  {
    var r := AppendDraftsStale(scenes, drafts, newIds);
    assert r[|scenes| + 1] == FromDraft(drafts[1], newIds[1], |scenes|);
    assert r[|scenes| + 1].position != |scenes| + 1;
  }

  /** The batch add with each draft placed after the previous one: draft `k`
      becomes the scene at index `|scenes| + k`, with its id and every draft field. */
  function AppendDrafts(scenes: seq<Scene>, drafts: seq<SceneDraft>, newIds: seq<string>): (r: seq<Scene>)
    requires |newIds| == |drafts|
    ensures |r| == |scenes| + |drafts|
    ensures r[..|scenes|] == scenes
    ensures forall k :: 0 <= k < |drafts| ==>
              r[|scenes| + k] == FromDraft(drafts[k], newIds[k], |scenes| + k)
    ensures Numbered(scenes) ==> Numbered(r)
    decreases |drafts|
  {
    if drafts == [] then scenes
    else
      var r := AppendDrafts(scenes + [FromDraft(drafts[0], newIds[0], |scenes|)], drafts[1..], newIds[1..]);
      assert r[..|scenes|] == (r[..|scenes| + 1])[..|scenes|];
      r
  }
}
