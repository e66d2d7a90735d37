/** The priority label table and the node colour palette (groups-3d/src/lib/utils.ts). */
module Utils {
  import opened Types

  /** The priorities in the key order of the label table. */
  const Priorities: seq<Priority> := [P1, P2, P3, P4, P5, P6, P7, P8, P9]

  /** The position of `p` in the label table: p1 is 0, p9 is 8. */
  function Rank(p: Priority): (k: nat)
    ensures k < |Priorities| && Priorities[k] == p
  {
    match p
    case P1 => 0
    case P2 => 1
    case P3 => 2
    case P4 => 3
    case P5 => 4
    case P6 => 5
    case P7 => 6
    case P8 => 7
    case P9 => 8
  }

  /** The table lists every priority exactly once. */
  lemma PrioritiesEnumerateOnce()
    ensures |Priorities| == 9
    ensures forall i, j :: 0 <= i < j < |Priorities| ==> Priorities[i] != Priorities[j]
    ensures forall i :: 0 <= i < |Priorities| ==> Rank(Priorities[i]) == i
  {
  }

  function PriorityLabel(p: Priority): string {
    match p
    case P1 => "Critical"
    case P2 => "Ultra High"
    case P3 => "Very High"
    case P4 => "High"
    case P5 => "Moderate"
    case P6 => "Low"
    case P7 => "Very Low"
    case P8 => "Minimal"
    case P9 => "Trivial"
  }

  /** The label table is total and injective: nine distinct labels. */
  lemma PriorityLabelsDistinct(p: Priority, q: Priority)
    ensures PriorityLabel(p) == PriorityLabel(q) <==> p == q
  {
  }

  /** The two shades of one action's colour. */
  datatype Shades = Shades(bright: string, dark: string)

  function Palette(action: FileAction): Shades {
    match action
    case Paid => Shades("#22c55e", "#14532d")
    case Pending => Shades("#eab308", "#422006")
    case Rejected => Shades("#ef4444", "#7f1d1d")
  }

  /** The six palette entries are pairwise distinct. */
  lemma PaletteDistinct(a: FileAction, b: FileAction)
    ensures Palette(a).bright != Palette(b).dark
    ensures Palette(a).bright == Palette(b).bright <==> a == b
    ensures Palette(a).dark == Palette(b).dark <==> a == b
  {
  }

  /** The colour of a node: the bright shade for p1, the dark shade otherwise. */
  function NodeColor(action: FileAction, priority: Priority): (c: string)
    ensures c == Palette(action).bright <==> priority == P1
    ensures c == Palette(action).dark <==> priority != P1
  {
    PaletteDistinct(action, action);
    if priority == P1 then Palette(action).bright else Palette(action).dark
  }

  /** The colour determines both the action and whether the priority is p1. */
  lemma NodeColorDeterminesActionAndUrgency(a: FileAction, p: Priority, b: FileAction, q: Priority)
    ensures NodeColor(a, p) == NodeColor(b, q) <==> a == b && (p == P1 <==> q == P1)
  {
  }
}
