/** The trait/level descriptor built once per crew member: which cell of the
    icon atlas shows the crew member's trait, which cell of the level strip
    shows the experience level, and the tint of the trait icon.

    Atlas coordinates are texture coordinates in [0, 1]; every constant the
    descriptor uses is an exact multiple of 1/128, so rectangles are kept
    exactly as integers counted in 1/128 of the atlas. */
module Traits {

  /** Number of atlas units in one texture coordinate. */
  const AtlasUnits: int := 128

  /** Side of a trait icon cell, in atlas units (0.203125 = 26/128). */
  const TraitCellSize: int := 26

  /** Width of one experience-level cell, in atlas units (0.1640625 = 21/128). */
  const LevelCellWidth: int := 21

  /** Height of the experience-level strip, in atlas units (0.765625 = 98/128). */
  const LevelCellHeight: int := 98

  /** The tints the descriptor picks from the host's XKCD colour table. */
  datatype IconColor = PastelRed | DarkYellow | DirtyBlue | SapGreen | White

  /** An atlas rectangle: left edge, bottom edge, width and height in atlas units. */
  datatype AtlasRect = AtlasRect(x: int, y: int, width: int, height: int)

  /** The host's record of a crew member, reduced to what the descriptor reads. */
  datatype ProtoCrewMember = ProtoCrewMember(name: string, traitTitle: string, experienceLevel: int)

  /** A crew member as listed by the host's portrait manager. */
  datatype Kerbal = Kerbal(name: string, protoCrewMember: ProtoCrewMember)

  /** The rectangle and tint chosen for one trait title. */
  datatype TraitCell = TraitCell(rect: AtlasRect, color: IconColor)

  /** The descriptor: the crew record it was built from, the trait cell, the
      level cell and the icon tint, all fixed at construction. */
  datatype KerbalTrait = KerbalTrait(protoCrew: ProtoCrewMember, traitPos: AtlasRect, levelPos: AtlasRect, iconColor: IconColor)

  /** The four trait titles the atlas has a dedicated icon for. */
  predicate IsNamedTrait(title: string) {
    title == "Pilot" || title == "Engineer" || title == "Scientist" || title == "Tourist"
  }

  /** The atlas cell and tint of a trait title; any other title gets the
      generic icon in white. Colour and rectangle come from the same branch. */
  function CrewType(title: string): (cell: TraitCell)
    ensures cell.rect.width == TraitCellSize && cell.rect.height == TraitCellSize
    ensures IsNamedTrait(title) <==> cell.color != White
    ensures IsNamedTrait(title) ==> cell.rect.y == 100 && cell.rect.x + TraitCellSize <= AtlasUnits
    ensures !IsNamedTrait(title) ==> cell == TraitCell(AtlasRect(104, 102, TraitCellSize, TraitCellSize), White)
  {
    match title
    case "Pilot" => TraitCell(AtlasRect(0, 100, TraitCellSize, TraitCellSize), PastelRed)
    case "Engineer" => TraitCell(AtlasRect(26, 100, TraitCellSize, TraitCellSize), DarkYellow)
    case "Scientist" => TraitCell(AtlasRect(53, 100, TraitCellSize, TraitCellSize), DirtyBlue)
    case "Tourist" => TraitCell(AtlasRect(79, 100, TraitCellSize, TraitCellSize), SapGreen)
    case _ => TraitCell(AtlasRect(104, 102, TraitCellSize, TraitCellSize), White)
  }

  /** The level-strip cell of an experience level. */
  function LevelRect(level: int): (r: AtlasRect)
    ensures r.y == 0 && r.width == LevelCellWidth && r.height == LevelCellHeight
  {
    AtlasRect(level * 22 - level * 1, 0, LevelCellWidth, LevelCellHeight)
  }

  /** The descriptor of a crew member: both rectangles and the tint are derived
      from the crew record once, here. */
  function NewKerbalTrait(k: Kerbal): (t: KerbalTrait)
    ensures t.protoCrew == k.protoCrewMember
    ensures t.traitPos == CrewType(k.protoCrewMember.traitTitle).rect
    ensures t.iconColor == CrewType(k.protoCrewMember.traitTitle).color
    ensures t.levelPos == LevelRect(k.protoCrewMember.experienceLevel)
  {
    var cell := CrewType(k.protoCrewMember.traitTitle);
    KerbalTrait(k.protoCrewMember, cell.rect, LevelRect(k.protoCrewMember.experienceLevel), cell.color)
  }

  /** The level whose strip cell starts at atlas column x (the inverse of
      LevelRect on the strip). */
  function LevelAt(x: int): (level: int)
    ensures level * LevelCellWidth <= x < (level + 1) * LevelCellWidth
  {
    x / LevelCellWidth
  }

  /** A texture-coordinate rectangle, as the host's Rect holds it. */
  datatype UvRect = UvRect(x: real, y: real, width: real, height: real)

  /** The texture coordinates of an atlas rectangle. */
  function Uv(r: AtlasRect): (u: UvRect)
    ensures u.x * AtlasUnits as real == r.x as real && u.width * AtlasUnits as real == r.width as real
  {
    UvRect(r.x as real / 128.0, r.y as real / 128.0, r.width as real / 128.0, r.height as real / 128.0)
  }

  /** The integer cells are exactly the source's literal texture coordinates. */
  lemma CellsMatchAtlasLiterals(level: int)
    ensures Uv(CrewType("Pilot").rect) == UvRect(0.0, 0.78125, 0.203125, 0.203125)
    ensures Uv(CrewType("Engineer").rect) == UvRect(0.203125, 0.78125, 0.203125, 0.203125)
    ensures Uv(CrewType("Scientist").rect) == UvRect(0.4140625, 0.78125, 0.203125, 0.203125)
    ensures Uv(CrewType("Tourist").rect) == UvRect(0.6171875, 0.78125, 0.203125, 0.203125)
    ensures Uv(CrewType("Kerbonaut").rect) == UvRect(0.8125, 0.796875, 0.203125, 0.203125)
    ensures Uv(LevelRect(level)) == UvRect(level as real * 0.171875 - level as real * 0.0078125, 0.0, 0.1640625, 0.765625)
  {
  }

  /** The four named traits are told apart by their cell and by their tint. */
  lemma NamedTraitsDistinct(t1: string, t2: string)
    requires IsNamedTrait(t1) && IsNamedTrait(t2) && t1 != t2
    ensures CrewType(t1).rect.x != CrewType(t2).rect.x
    ensures CrewType(t1).color != CrewType(t2).color
  {
  }

  /** The named trait cells do not overlap: any two lie side by side on the same row. */
  lemma NamedCellsDisjoint(t1: string, t2: string)
    requires IsNamedTrait(t1) && IsNamedTrait(t2) && t1 != t2
    ensures var a, b := CrewType(t1).rect, CrewType(t2).rect;
            a.x + a.width <= b.x || b.x + b.width <= a.x
  {
  }

  /** The generic cell reaches two units past the right edge of the atlas
      and overlaps the Tourist cell in both columns and rows; the named cells lie inside. */
  lemma GenericCellPastAtlasEdge(title: string)
    requires !IsNamedTrait(title)
    ensures CrewType(title).rect.x + CrewType(title).rect.width == AtlasUnits + 2
    ensures CrewType(title).rect.x < CrewType("Tourist").rect.x + TraitCellSize
    ensures CrewType(title).rect.y < CrewType("Tourist").rect.y + TraitCellSize
    ensures CrewType("Tourist").rect.x + TraitCellSize - CrewType(title).rect.x == 1
    ensures CrewType("Tourist").rect.y + TraitCellSize - CrewType(title).rect.y == 24
  {
  }

  /** The tint alone determines the trait cell: both come from the same case. */
  lemma ColorDeterminesCell(t1: string, t2: string)
    requires CrewType(t1).color == CrewType(t2).color
    ensures CrewType(t1) == CrewType(t2)
  {
  }

  /** Consecutive level cells abut: each ends where the next one starts. */
  lemma LevelCellsAbut(level: int)
    ensures LevelRect(level).x + LevelRect(level).width == LevelRect(level + 1).x
  {
  }

  /** The level is recovered from its cell, so distinct levels get distinct cells. */
  lemma LevelRoundTrip(level: int)
    ensures LevelAt(LevelRect(level).x) == level
  {
  }
}
