/** Counting a condition. */
module Indicator {
  function One(b: bool): nat { if b then 1 else 0 }
}
