// One cell of the world (crates/fallingsand_core/src/cell.rs). The packed motion
// bytes and the BODY flag become the Motion datatype.
module Cells {
  import opened Materials

  type I16 = n: int | -0x8000 <= n < 0x8000
  type BodyId = nat

  function ClampI16(v: int): I16 {
    if v < -0x8000 then -0x8000 else if v > 0x7fff then 0x7fff else v
  }

  datatype Motion = Velocity(vx: I16, vy: I16) | Body(id: BodyId)

  // What the client is shown of a cell.
  datatype Matter = Matter(material: MaterialId, shade: U8)

  datatype Cell = Cell(material: MaterialId, motion: Motion, shade: U8, moved: bool, stressed: bool) {
    predicate IsAir() {
      material == AIR_ID
    }

    function Visible(): Matter {
      Matter(material, shade)
    }

    function Phase(): Phase {
      CONTENT.phase(material)
    }

    function WithVelocity(vx: int, vy: int): Cell
      requires motion.Velocity?
    {
      this.(motion := Velocity(ClampI16(vx), ClampI16(vy)))
    }

    function WithBody(id: BodyId): Cell {
      this.(motion := Body(id))
    }

    function WithoutBody(): Cell {
      if motion.Body? then this.(motion := Velocity(0, 0)) else this
    }

    function ClearMoved(): Cell {
      this.(moved := false)
    }

    // The flags a swap leaves on both cells.
    function Swapped(): Cell {
      this.(moved := true, stressed := false)
    }
  }

  const AIR: Cell := Cell(AIR_ID, Velocity(0, 0), 0, false, false)

  // Cell::new keeps the low four bits of the shade.
  function NewCell(material: MaterialId, shade: U8): Cell {
    Cell(material, Velocity(0, 0), shade % 16, false, false)
  }
}
