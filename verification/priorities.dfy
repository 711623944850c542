/** Priorities of tokens. */
module Priorities {
  /** The priority that asks for the awaiting process's own. */
  const INHERIT: int := 0x7fff_ffff_ffff_ffff
}
