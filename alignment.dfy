/** How the separately computed pieces line up: the generated data places every file on
    its own group's row, person's layer and day's column, and the labels, pillars, day
    columns and scroll handlers agree with those positions. */
module Alignment {
  import opened Types
  import opened Data
  import opened Files
  import GroupLayers
  import PeopleLayers
  import SceneTimeline
  import App
  import Strings

  /** In generated data, the group with id g-i is found at index i, and the person with
      id p-i at index i. */
  lemma GeneratedLookups(draws: seq<FileDraw>, i: nat)
    requires ValidDraws(draws)
    ensures i < GroupCount ==> GroupIndex(GenerateData(draws).groups, GroupId(i)) == i
    ensures i < PersonCount ==> PersonIndex(GenerateData(draws).people, PersonId(i)) == i
  {
  }

  /** Generated file `k` is found in the row of its drawn group and the layer of its drawn person. */
  lemma GeneratedFileIndexes(draws: seq<FileDraw>, k: int)
    requires ValidDraws(draws) && 0 <= k < FileCount
    ensures var data := GenerateData(draws);
      && data.files[k].dayOffset == draws[k].day
      && FirstGroupWithId(data.groups, draws[k].group, data.files[k].groupId)
      && FirstPersonWithId(data.people, draws[k].person, data.files[k].personId)
      && GroupIndex(data.groups, data.files[k].groupId) == draws[k].group
      && PersonIndex(data.people, data.files[k].personId) == draws[k].person
  {
    var data := GenerateData(draws);
    var g, p := draws[k].group, draws[k].person;
    assert data.files[k].groupId == GroupId(g) == data.groups[g].id;
    assert data.files[k].personId == PersonId(p) == data.people[p].id;
    assert FirstGroupWithId(data.groups, g, data.files[k].groupId);
    assert FirstPersonWithId(data.people, p, data.files[k].personId);
  }

  /** What the views rely on in a dataset built from `draws`: twenty groups on rows 0,
      -1, -2, ..., distinct group and person ids, and file `k` dated draw `k`'s day,
      with draw `k`'s group and person the first holders of its group and person ids. */
  predicate MatchesDraws(data: Dataset, draws: seq<FileDraw>) {
    && |data.files| == |draws| && |data.groups| == GroupCount && |data.people| == PersonCount
    && (forall i :: 0 <= i < |data.groups| ==> data.groups[i].yIndex == -i)
    && GroupIdsUnique(data.groups) && PersonIdsUnique(data.people)
    && forall k :: 0 <= k < |draws| ==>
      && data.files[k].dayOffset == draws[k].day
      && FirstGroupWithId(data.groups, draws[k].group, data.files[k].groupId)
      && FirstPersonWithId(data.people, draws[k].person, data.files[k].personId)
  }

  /** The generated dataset matches the draws it was built from. */
  lemma GeneratedMatchesDraws(draws: seq<FileDraw>)
    requires ValidDraws(draws)
    ensures MatchesDraws(GenerateData(draws), draws)
  {
    forall k | 0 <= k < |draws|
      ensures var data := GenerateData(draws);
        && data.files[k].dayOffset == draws[k].day
        && FirstGroupWithId(data.groups, draws[k].group, data.files[k].groupId)
        && FirstPersonWithId(data.people, draws[k].person, data.files[k].personId)
    {
      GeneratedFileIndexes(draws, k);
    }
  }

  /** File `k` sits at its drawn day, `group` rows down and `person` layers back, never
      at the fallback position of a missing group or person. */
  lemma FilePositionFromDraws(data: Dataset, draws: seq<FileDraw>, k: int, dims: Dimensions)
    requires MatchesDraws(data, draws) && 0 <= k < |draws|
    ensures FilePosition(data.files[k], data.groups, data.people, dims)
      == Vec3(draws[k].day as real * dims.dayWidth,
              -(draws[k].group as real) * dims.groupHeight,
              -(draws[k].person as real) * dims.personDepth)
  {
    PositionAtIndexes(data.files[k], data.groups, data.people, dims, draws[k].group, draws[k].person);
  }

  /** A group's label sits on the row of that group's files. */
  lemma GroupLabelOnItsFilesRow(data: Dataset, draws: seq<FileDraw>, i: int, k: int, dims: Dimensions,
                                selectedGroupId: Option<string>, selectedFile: Option<FileNode>)
    requires MatchesDraws(data, draws) && 0 <= i < |data.groups| && 0 <= k < |draws|
    requires data.files[k].groupId == data.groups[i].id
    ensures GroupLayers.Label(data.groups[i], dims.groupHeight, selectedGroupId, selectedFile).position.y
      == FilePosition(data.files[k], data.groups, data.people, dims).y
  {
  }

  /** A person's pillar stands at the depth of that person's files. */
  lemma PillarOnItsFilesLayer(data: Dataset, draws: seq<FileDraw>, i: int, k: int, dims: Dimensions)
    requires MatchesDraws(data, draws) && 0 <= i < |data.people| && 0 <= k < |draws|
    requires data.files[k].personId == data.people[i].id
    ensures PeopleLayers.Pillars(data.people, |data.groups|, dims)[i].position.z
      == FilePosition(data.files[k], data.groups, data.people, dims).z
  {
    var q := draws[k].person;
    assert data.people[q].id == data.people[i].id;
    assert i == q;
    FilePositionFromDraws(data, draws, k, dims);
  }

  /** The day column `i` stands over every file dated day `i`. */
  lemma DayColumnOverItsFiles(file: FileNode, i: nat, groups: seq<Group>, people: seq<Person>, dims: Dimensions,
                              filter: Option<DayKey>)
    requires i < SceneTimeline.TotalDays && file.dayOffset == i
    ensures SceneTimeline.Columns(dims.dayWidth, |groups|, dims.groupHeight, filter)[i].x
      == FilePosition(file, groups, people, dims).x
  {
  }

  /** Scrolling the timeline bar to the left edge of day label `i` sets the view's x to
      the x of the files dated day `i`. */
  lemma TimelineScrollReachesDay(file: FileNode, i: nat, groups: seq<Group>, people: seq<Person>,
                                 dims: Dimensions, pixelsPerUnit: real)
    requires pixelsPerUnit != 0.0 && file.dayOffset == i
    ensures App.WorldX(App.DayLabelLeft(i, dims, pixelsPerUnit), pixelsPerUnit)
      == FilePosition(file, groups, people, dims).x
  {
    App.ScrollToDayLabel(i, dims, pixelsPerUnit);
  }

  /** Scrolling the sidebar down past `g` group rows sets the view's y to the row of
      group `g`'s files. */
  lemma SidebarScrollReachesGroup(data: Dataset, draws: seq<FileDraw>, k: int, dims: Dimensions, pixelsPerUnit: real)
    requires MatchesDraws(data, draws) && 0 <= k < |draws| && pixelsPerUnit != 0.0
    ensures App.WorldY(App.StackedRows(draws[k].group, dims, pixelsPerUnit), pixelsPerUnit)
      == FilePosition(data.files[k], data.groups, data.people, dims).y
  {
    var y := -(draws[k].group as real) * dims.groupHeight;
    App.ScrollToSidebarRow(draws[k].group, dims, pixelsPerUnit);
    assert App.WorldY(App.StackedRows(draws[k].group, dims, pixelsPerUnit), pixelsPerUnit) == y;
    FilePositionFromDraws(data, draws, k, dims);
    assert FilePosition(data.files[k], data.groups, data.people, dims).y == y;
  }

  /** The generated people all have different avatar initials. */
  lemma GeneratedInitialsDistinct(draws: seq<FileDraw>, dims: Dimensions, i: int, j: int)
    requires ValidDraws(draws) && 0 <= i < j < PersonCount
    ensures var ps := PeopleLayers.Pillars(GenerateData(draws).people, GroupCount, dims);
      ps[i].initials != ps[j].initials
  {
    var people := GenerateData(draws).people;
    var a, b := PeopleLayers.Initials(people[i].name), PeopleLayers.Initials(people[j].name);
    assert a[0] == Strings.UpperChar(PersonNames[i][0]) == PersonNames[i][0];
    assert b[0] == Strings.UpperChar(PersonNames[j][0]) == PersonNames[j][0];
  }
}
