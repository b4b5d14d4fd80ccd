/** The interest mask of one descriptor: the two epoll bits the library uses, in an int32_t. */
module Interest {

  const EPOLLIN: bv32 := 1
  const EPOLLOUT: bv32 := 4

  datatype Bit = In | Out

  /** The mask as the set of its two bits. */
  datatype Mask = Mask(inb: bool, out: bool) {
    predicate Has(b: Bit) {
      if b == In then inb else out
    }

    function Armed(b: Bit): Mask {
      if b == In then Mask(true, out) else Mask(inb, true)
    }

    function Toggled(b: Bit): Mask {
      if b == In then Mask(!inb, out) else Mask(inb, !out)
    }
  }

  const NOTHING := Mask(false, false)

  function Word(b: Bit): bv32 {
    if b == In then EPOLLIN else EPOLLOUT
  }

  function View(m: bv32): Mask {
    Mask(m & EPOLLIN != 0, m & EPOLLOUT != 0)
  }

  /** `|=` arms one bit and `^=` toggles one bit; neither touches the other. */
  lemma BitOperations(m: bv32, b: Bit)
    ensures View(m | Word(b)) == View(m).Armed(b)
    ensures View(m ^ Word(b)) == View(m).Toggled(b)
  {
  }
}
