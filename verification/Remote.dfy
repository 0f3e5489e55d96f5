/** How a remote call can end. */
module Remote {
  /** What the caller sees: it worked, it was rejected, or it worked but the answer was lost. */
  datatype Outcome = Ok | Rejected | Lost
}
