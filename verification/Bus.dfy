/** The address space as the CPU sees it: a kind for every mapped address, a byte for every backed one. */
module Bus {
  import opened Types

  datatype Kind = Ram | Rom | Io

  datatype Space = Space(kinds: map<uint16, Kind>, cells: map<uint16, uint8>)

  const OPEN_BUS: uint8 := 0xFF

  predicate Writable(s: Space, addr: uint16) {
    addr in s.kinds && s.kinds[addr] == Ram && addr in s.cells
  }

  function Read(s: Space, addr: uint16): uint8 {
    if addr in s.cells then s.cells[addr] else OPEN_BUS
  }

  function Read16(s: Space, addr: uint16): uint16 {
    Word(Read(s, addr), Read(s, Low16(addr + 1)))
  }

  function Write(s: Space, addr: uint16, value: uint8): Space {
    if Writable(s, addr) then s.(cells := s.cells[addr := value]) else s
  }

  /** Same map of kinds and backed addresses; only writable cells in `touched` may hold another byte. */
  ghost predicate AgreeOutside(s: Space, t: Space, touched: set<uint16>) {
    && s.kinds == t.kinds
    && s.cells.Keys == t.cells.Keys
    && forall a: uint16 :: a !in touched || !Writable(s, a) ==> Read(s, a) == Read(t, a)
  }

  lemma WriteAgrees(s: Space, addr: uint16, value: uint8)
    ensures AgreeOutside(s, Write(s, addr, value), {addr})
    ensures Writable(s, addr) ==> Read(Write(s, addr, value), addr) == value
  {
  }

  lemma AgreeSelf(s: Space, touched: set<uint16>)
    ensures AgreeOutside(s, s, touched)
  {
  }

  lemma AgreeTransitive(s: Space, t: Space, u: Space, first: set<uint16>, second: set<uint16>)
    requires AgreeOutside(s, t, first) && AgreeOutside(t, u, second)
    ensures AgreeOutside(s, u, first + second)
  {
  }
}
