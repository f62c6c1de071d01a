/** What several modules share. */
module Common {

  datatype Option<+T> = None | Some(value: T)

  /** Where a tool refuses or the machine stops a command, if anywhere. */
  datatype Stop = Never | At(point: nat)

  function Pow2(n: nat): (p: nat)
    ensures p >= 1
  {
    if n == 0 then 1 else 2 * Pow2(n - 1)
  }
}
