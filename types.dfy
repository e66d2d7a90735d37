/** The entities of the generated dataset and the small value types shared by
    the store, the layout rules and the scene components (groups-3d/src/types.ts). */
module Types {

  datatype Option<+T> = None | Some(value: T)

  /** The camera modes. The camera and file opacity treat only Fly specially, so Top and
      Side look like Grid there; the view-mode button sends Grid to Fly and the others to Grid. */
  datatype ViewMode = Grid | Fly | Top | Side

  datatype FileAction = Paid | Pending | Rejected

  /** Priorities p1 (most urgent) to p9, in the key order of the priority label table. */
  datatype Priority = P1 | P2 | P3 | P4 | P5 | P6 | P7 | P8 | P9

  datatype Person = Person(id: string, name: string, color: string, zIndex: int)

  datatype Group = Group(id: string, name: string, yIndex: int)

  /** A file (an invoice). Its ISO date is represented by `dayOffset`, the number of
      whole days between the dataset's start date and the file's date. */
  datatype FileNode = FileNode(
    id: string,
    name: string,
    groupId: string,
    personId: string,
    dayOffset: int,
    action: FileAction,
    color: string)

  /** The generated data. The start date is a wall-clock value and is represented only
      implicitly, as day offset 0. */
  datatype Dataset = Dataset(people: seq<Person>, groups: seq<Group>, files: seq<FileNode>)

  /** Layout sizes in world units. */
  datatype Dimensions = Dimensions(dayWidth: real, groupHeight: real, personDepth: real)

  datatype Vec3 = Vec3(x: real, y: real, z: real)

  /** The 'YYYY-MM-DD' key of the timeline day `offset` days after the start date. */
  datatype DayKey = DayKey(offset: int)

  /** The store action a click in the scene invokes, with its argument. */
  datatype Command =
    | SelectFile(file: FileNode)
    | SelectGroup(groupId: string)
    | SetFilterPriority(priority: Priority)
    | SetFilterDate(day: DayKey)

  /** JavaScript truthiness of an optional string: null and "" are both falsy. */
  predicate Truthy(s: Option<string>) {
    s.Some? && s.value != ""
  }
}
