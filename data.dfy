/** The generated dataset (groups-3d/src/data.ts): 8 people, 20 groups and 100 files.
    The random draws of the source are inputs here: one FileDraw per file, each index
    already reduced to the range of the collection it picks from. */
module Data {
  import opened Types
  import opened Strings
  import Utils

  const PersonCount: nat := 8
  const GroupCount: nat := 20
  const FileCount: nat := 100
  const DayCount: nat := 30

  const PersonNames: seq<string> := ["Abbey", "Beth", "Chris", "Dave", "Eve", "Frank", "Grace", "Hank"]
  const GroupSuffixes: seq<string> := ["Alpha", "Beta", "Gamma", "Delta"]
  const Actions: seq<FileAction> := [Paid, Pending, Rejected]

  function PersonId(i: nat): string { "p-" + NatToString(i) }
  function GroupId(i: nat): string { "g-" + NatToString(i) }
  function FileId(i: nat): string { "f-" + NatToString(i) }

  lemma PersonIdInjective(i: nat, j: nat)
    ensures PersonId(i) == PersonId(j) <==> i == j
  {
    PrefixedNatInjective("p-", i, j);
  }

  lemma GroupIdInjective(i: nat, j: nat)
    ensures GroupId(i) == GroupId(j) <==> i == j
  {
    PrefixedNatInjective("g-", i, j);
  }

  lemma FileIdInjective(i: nat, j: nat)
    ensures FileId(i) == FileId(j) <==> i == j
  {
    PrefixedNatInjective("f-", i, j);
  }

  function GroupName(i: nat): string {
    "Group " + NatToString(i + 1) + " - " + GroupSuffixes[i % 4]
  }

  /** A group name is "Group ", the number, then a space. */
  lemma GroupNameLayout(i: nat)
    ensures var a := NatToString(i + 1);
      && |GroupName(i)| > 6 + |a|
      && GroupName(i)[..6] == "Group "
      && GroupName(i)[6..6 + |a|] == a
      && GroupName(i)[6 + |a|] == ' '
  {
  }

  /** Group names are pairwise distinct: the number before " - " tells them apart. */
  lemma GroupNameInjective(i: nat, j: nat)
    ensures GroupName(i) == GroupName(j) <==> i == j
  {
    if GroupName(i) == GroupName(j) {
      var a, b := NatToString(i + 1), NatToString(j + 1);
      GroupNameLayout(i);
      GroupNameLayout(j);
      if |a| < |b| {
        assert false;
      } else if |b| < |a| {
        assert false;
      } else {
        NatToStringInjective(i + 1, j + 1);
      }
    }
  }

  /** One file's random choices: indexes into groups, people, the 30 days and the actions. */
  datatype FileDraw = FileDraw(group: nat, person: nat, day: nat, action: nat)

  /** What Math.floor(Math.random() * n) can return for each collection. */
  predicate InRange(d: FileDraw) {
    d.group < GroupCount && d.person < PersonCount && d.day < DayCount && d.action < |Actions|
  }

  /** The colour data.ts gives a file of each action. */
  function FileColor(action: FileAction): string {
    if action == Paid then "#22c55e" else if action == Pending then "#eab308" else "#ef4444"
  }

  /** A file is coloured as the node colour of its action at priority p1. */
  lemma FileColorIsBrightNodeColor(action: FileAction)
    ensures FileColor(action) == Utils.NodeColor(action, P1) == Utils.Palette(action).bright
  {
  }

  function MakePerson(i: nat): Person
    requires i < PersonCount
  {
    Person(PersonId(i), PersonNames[i], "hsl(" + NatToString(i * 45) + ", 70%, 50%)", -(i as int))
  }

  function MakeGroup(i: nat): Group
    requires i < GroupCount
  {
    Group(GroupId(i), GroupName(i), -(i as int))
  }

  function MakeFile(i: nat, d: FileDraw, groups: seq<Group>, people: seq<Person>): FileNode
    requires InRange(d) && |groups| == GroupCount && |people| == PersonCount
  {
    var action := Actions[d.action];
    FileNode(
      FileId(i),
      "Invoice #" + NatToString(1000 + i),
      groups[d.group].id,
      people[d.person].id,
      d.day,
      action,
      FileColor(action))
  }

  /** Every file's group and person belong to the dataset. */
  ghost predicate ReferencesResolve(data: Dataset) {
    forall f :: f in data.files ==>
      (exists g :: g in data.groups && g.id == f.groupId) &&
      (exists p :: p in data.people && p.id == f.personId)
  }

  predicate GroupIdsUnique(groups: seq<Group>) {
    forall i, j :: 0 <= i < j < |groups| ==> groups[i].id != groups[j].id
  }

  predicate PersonIdsUnique(people: seq<Person>) {
    forall i, j :: 0 <= i < j < |people| ==> people[i].id != people[j].id
  }

  predicate FileIdsUnique(files: seq<FileNode>) {
    forall i, j :: 0 <= i < j < |files| ==> files[i].id != files[j].id
  }

  predicate ValidDraws(draws: seq<FileDraw>) {
    |draws| == FileCount && forall k :: 0 <= k < |draws| ==> InRange(draws[k])
  }

  /** The eight people, person `i` made by MakePerson(i). */
  function People(): (people: seq<Person>)
    ensures |people| == PersonCount
    ensures forall i :: 0 <= i < PersonCount ==> people[i] == MakePerson(i)
  {
    seq(PersonCount, i requires 0 <= i < PersonCount => MakePerson(i))
  }

  /** The twenty groups, group `i` made by MakeGroup(i). */
  function Groups(): (groups: seq<Group>)
    ensures |groups| == GroupCount
    ensures forall i :: 0 <= i < GroupCount ==> groups[i] == MakeGroup(i)
  {
    seq(GroupCount, i requires 0 <= i < GroupCount => MakeGroup(i))
  }

  /** The hundred files, file `k` made from draw `k`. */
  function Files(draws: seq<FileDraw>, groups: seq<Group>, people: seq<Person>): (files: seq<FileNode>)
    requires ValidDraws(draws) && |groups| == GroupCount && |people| == PersonCount
    ensures |files| == FileCount
    ensures forall k :: 0 <= k < FileCount ==> files[k] == MakeFile(k, draws[k], groups, people)
  {
    seq(FileCount, k requires 0 <= k < FileCount => MakeFile(k, draws[k], groups, people))
  }

  function GenerateData(draws: seq<FileDraw>): (data: Dataset)
    requires ValidDraws(draws)
    ensures |data.people| == PersonCount && |data.groups| == GroupCount && |data.files| == FileCount
    ensures forall i :: 0 <= i < PersonCount ==>
      && data.people[i].id == PersonId(i) && data.people[i].name == PersonNames[i] && data.people[i].zIndex == -i
      && data.people[i].color == "hsl(" + NatToString(i * 45) + ", 70%, 50%)"
    ensures forall i :: 0 <= i < GroupCount ==>
      data.groups[i].id == GroupId(i) && data.groups[i].name == GroupName(i) && data.groups[i].yIndex == -i
    ensures forall k :: 0 <= k < FileCount ==>
      && data.files[k].id == FileId(k)
      && data.files[k].groupId == GroupId(draws[k].group)
      && data.files[k].personId == PersonId(draws[k].person)
      && data.files[k].name == "Invoice #" + NatToString(1000 + k)
      && data.files[k].dayOffset == draws[k].day
      && 0 <= data.files[k].dayOffset < DayCount
      && data.files[k].action == Actions[draws[k].action]
      && data.files[k].color == Utils.NodeColor(data.files[k].action, P1)
    ensures ReferencesResolve(data)
    ensures PersonIdsUnique(data.people) && GroupIdsUnique(data.groups) && FileIdsUnique(data.files)
  {
    var people := People();
    var groups := Groups();
    var files := Files(draws, groups, people);
    var data := Dataset(people, groups, files);
    assert ReferencesResolve(data) by {
      forall f | f in files
        ensures (exists g :: g in groups && g.id == f.groupId) && (exists p :: p in people && p.id == f.personId)
      {
        var k :| 0 <= k < |files| && files[k] == f;
        assert groups[draws[k].group] in groups;
        assert people[draws[k].person] in people;
      }
    }
    assert PersonIdsUnique(people) by {
      forall i, j | 0 <= i < j < |people| ensures people[i].id != people[j].id {
        PersonIdInjective(i, j);
      }
    }
    assert GroupIdsUnique(groups) by {
      forall i, j | 0 <= i < j < |groups| ensures groups[i].id != groups[j].id {
        GroupIdInjective(i, j);
      }
    }
    assert FileIdsUnique(files) by {
      forall i, j | 0 <= i < j < |files| ensures files[i].id != files[j].id {
        FileIdInjective(i, j);
      }
    }
    data
  }
}
