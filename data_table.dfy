/** What the data-table steps share: a row whose `expect` throws ends the
    step, so the rows looked at are all of them or those up to the failing one. */
module DataTable {
  import opened Js

  /** How many rows the loop got through: all `n`, or up to the failing one. */
  function Processed(n: nat, failed: Option<nat>): (done: nat)
    ensures failed.None? ==> done == n
    ensures failed.Some? ==> done == failed.value + 1
  {
    if failed.None? then n else failed.value + 1
  }
}
