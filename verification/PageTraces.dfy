/** What the kernel reports about pages, and what is known of a live page. */
module PageTraces {
  import opened Pages

  type Stack = seq<nat>

  datatype Event =
    | Alloc(page: Page, stack: Stack, pid: nat)
    | Free(page: Page, pid: nat)
    | Mark(page: Page, b: bool)

  /** A live page: the stack that allocated it last, and its page cache mark. */
  datatype Held = Held(stack: Stack, cached: bool)

  function StackOf(): (Page, Held) -> Stack {
    (p, h: Held) => h.stack
  }

  /** The frames of a live page, or only those in the page cache. */
  function HeldNumber(p: Page, h: Held, cache: bool): nat {
    if cache && !h.cached then 0 else Number(p)
  }

  function HeldFrames(cache: bool): (Page, Held) -> nat {
    (p, h) => HeldNumber(p, h, cache)
  }
}
