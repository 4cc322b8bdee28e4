/** A page packed into 32 bits: the frame number below, the order in the top
    four bits. */
module Pages {
  const PFN_LIMIT := 0x1000_0000
  const WORD := 0x1_0000_0000

  type Word32 = x: int | 0 <= x < WORD

  datatype Page = Page(inner: Word32)

  function Pfn(p: Page): nat {
    p.inner % PFN_LIMIT
  }

  function Order(p: Page): nat {
    p.inner / PFN_LIMIT
  }

  function New(pfn: nat, order: nat): Page {
    Page(pfn % PFN_LIMIT + order * PFN_LIMIT % WORD)
  }

  function SetOrder(p: Page, order: nat): Page {
    Page(p.inner % PFN_LIMIT + order * PFN_LIMIT % WORD)
  }

  function TwoTo(n: nat): nat {
    if n == 0 then 1 else 2 * TwoTo(n - 1)
  }

  lemma {:induction false} PowerPositive(n: nat)
    ensures TwoTo(n) > 0
  {
    if n > 0 {
      PowerPositive(n - 1);
    }
  }

  /** How many frames the page spans. */
  function Number(p: Page): nat {
    TwoTo(Order(p))
  }

  function SizeKib(p: Page): nat {
    4 * TwoTo(Order(p))
  }

  lemma ShiftedOrder(order: nat)
    ensures order * PFN_LIMIT % WORD == order % 16 * PFN_LIMIT
  {
    assert order == order / 16 * 16 + order % 16;
    assert order * PFN_LIMIT == order / 16 * WORD + order % 16 * PFN_LIMIT;
  }

  /** Packing keeps 28 bits of the frame number and 4 of the order, and loses
      nothing else: unpacking and packing again gives the same page. */
  lemma Packing(pfn: nat, order: nat, p: Page)
    ensures Pfn(New(pfn, order)) == pfn % PFN_LIMIT && Order(New(pfn, order)) == order % 16
    ensures New(Pfn(p), Order(p)) == p && Order(p) < 16
    ensures SetOrder(p, order) == New(Pfn(p), order) && SetOrder(p, Order(p)) == p
  {
    ShiftedOrder(order);
    ShiftedOrder(Order(p));
  }

  /** The frames of a page of each order. */
  const FRAMES := [1, 2, 4, 8, 16, 32, 64, 128, 256, 512, 1024, 2048, 4096, 8192, 16384, 32768]

  lemma {:induction false} PowerIs(n: nat)
    requires n < 16
    ensures TwoTo(n) == FRAMES[n]
  {
    if n > 0 {
      PowerIs(n - 1);
    }
  }

  /** A page of order `order` spans the frames of that order, four KiB each. */
  lemma FramesOf(pfn: nat, order: nat)
    ensures Number(New(pfn, order)) == FRAMES[order % 16] && SizeKib(New(pfn, order)) == 4 * FRAMES[order % 16]
  {
    Packing(pfn, order, New(pfn, order));
    PowerIs(order % 16);
  }
}
