// The material table is data that the game's content crate generates. The model
// keeps one arbitrary table, CONTENT, so every statement in this project holds
// for all of them; what it asks of a table is what the content compiler promises.
module Materials {
  type U8 = n: int | 0 <= n < 0x100
  type MaterialId = n: int | 0 <= n < 0x1_0000

  const AIR_ID: MaterialId := 0
  const UNBONDED: U8 := 255

  datatype Phase = Empty | Solid | Powder | Liquid | Gas

  datatype Table = Table(
    count: nat,
    phase: MaterialId -> Phase,
    densityMilli: MaterialId -> int,
    bondGroup: MaterialId -> U8,
    supportive: MaterialId -> bool,
    opaque_: MaterialId -> bool,
    bodyTag: MaterialId -> bool,
    restitution: MaterialId -> nat,
    friction: MaterialId -> nat,
    liquidImpact: MaterialId -> nat)

  ghost predicate Compiled(t: Table) {
    && 0 < t.count <= 0x1_0000
    && (forall m: MaterialId :: t.phase(m) == Empty <==> m == AIR_ID)
    && t.bondGroup(AIR_ID) == UNBONDED
  }

  const TABLE: Table := Table(
    1,
    (m: MaterialId) => if m == AIR_ID then Empty else Solid,
    (m: MaterialId) => 1,
    (m: MaterialId) => UNBONDED,
    (m: MaterialId) => false,
    (m: MaterialId) => false,
    (m: MaterialId) => false,
    (m: MaterialId) => 0,
    (m: MaterialId) => 0,
    (m: MaterialId) => 0)

  type Content = t: Table | Compiled(t) witness TABLE

  const CONTENT: Content

  // What a cell of the material keeps from falling through it (world.rs, obstructs).
  predicate Obstructs(m: MaterialId) {
    CONTENT.phase(m) == Solid || CONTENT.phase(m) == Powder
  }

  // Cells of one bond group hold together.
  predicate Bonds(a: MaterialId, b: MaterialId) {
    CONTENT.bondGroup(a) != UNBONDED && CONTENT.bondGroup(a) == CONTENT.bondGroup(b)
  }

  predicate Bondable(m: MaterialId) {
    CONTENT.bondGroup(m) != UNBONDED
  }

  // The mass of a cell: its density, at least one.
  function Heaviness(m: MaterialId): (mass: int)
    ensures mass >= 1
  {
    if CONTENT.densityMilli(m) < 1 then 1 else CONTENT.densityMilli(m)
  }
}
