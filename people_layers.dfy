/** The person pillars (groups-3d/src/components/ui/PeopleLayers.tsx): one translucent
    pillar per person, at that person's depth, spanning the whole grid height, with an
    avatar showing the person's initials. */
module PeopleLayers {
  import opened Types
  import opened Strings

  const PillarX: real := -4.0

  /** What one pillar is drawn with. The pillar is centred at `pillarCenterY` and is
      `pillarHeight` tall. */
  datatype PersonPillar = PersonPillar(
    position: Vec3,
    pillarCenterY: real,
    pillarHeight: real,
    initials: string,
    verticalName: string)

  /** The first two characters of the name, upper-cased (the whole name if shorter). */
  function Initials(name: string): (s: string)
    ensures |s| == if |name| < 2 then |name| else 2
    ensures forall i :: 0 <= i < |s| ==> s[i] == UpperChar(name[i])
  {
    ToUpper(if |name| < 2 then name else name[..2])
  }

  function Pillar(index: nat, person: Person, groupCount: nat, dims: Dimensions): (p: PersonPillar)
    ensures p.position == Vec3(PillarX, 0.0, -(index as real) * dims.personDepth)
    ensures p.pillarHeight == groupCount as real * dims.groupHeight
    ensures p.pillarCenterY + p.pillarHeight / 2.0 == 0.0
    ensures p.pillarCenterY - p.pillarHeight / 2.0 == -(groupCount as real * dims.groupHeight)
    ensures p.initials == Initials(person.name)
    ensures |p.verticalName| == |person.name|
    ensures forall i :: 0 <= i < |person.name| ==> p.verticalName[i] == UpperChar(person.name[i])
  {
    var totalGridHeight := groupCount as real * dims.groupHeight;
    var z := index as real * -dims.personDepth;
    var yCenter := -(totalGridHeight / 2.0);
    PersonPillar(Vec3(PillarX, 0.0, z), yCenter, totalGridHeight, Initials(person.name), ToUpper(person.name))
  }

  /** Exactly one pillar per person, in the order of the people. */
  function Pillars(people: seq<Person>, groupCount: nat, dims: Dimensions): (ps: seq<PersonPillar>)
    ensures |ps| == |people|
    ensures forall i :: 0 <= i < |ps| ==> ps[i] == Pillar(i, people[i], groupCount, dims)
  {
    seq(|people|, i requires 0 <= i < |people| => Pillar(i, people[i], groupCount, dims))
  }
}
