/** Small shared vocabulary: optional values, byte contents, and the writes of an interruptible call. */
module Prelude {
  datatype Option<+T> = None | Some(value: T)

  newtype byte = x: int | 0 <= x < 256

  type Bytes = seq<byte>

  /** The durable state after a sequence of writes: the last one, or the state before when there was none. */
  function LastOf<D>(before: D, writes: seq<D>): (d: D)
  {
    if writes == [] then before else writes[|writes| - 1]
  }

  /** A process killed after `cut` of its writes leaves exactly those; a larger `cut` means it was not killed. */
  function Cut<D>(writes: seq<D>, cut: nat): (kept: seq<D>)
  {
    if cut <= |writes| then writes[..cut] else writes
  }

  /** Decimal digits of a number. */
  function Decimal(n: nat): string {
    var digit := ['0' + (n % 10) as char];
    if n < 10 then digit else Decimal(n / 10) + digit
  }
}
