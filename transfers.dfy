/**
 * The transfer records of the analytics feed, as far as the dashboard reads
 * them. A JavaScript value that is absent or falsy (`undefined`, `null`, `""`)
 * is an empty string for the text fields the source only tests for
 * truthiness, and `None` where the source keeps the value as it is.
 */
module Transfers {
  import opened Wrappers

  datatype Token = Token(symbol: string, logoURI: Option<string>)

  /** One entry of `includedSteps`; `tool` is "" when the step names none. */
  datatype Step = Step(tool: string)

  /** `sending` or `receiving`; an absent `includedSteps` is the empty list. */
  datatype Leg = Leg(
    token: Token,
    chainId: int,
    amountUSD: Option<string>,
    timestamp: Option<int>,
    includedSteps: seq<Step>)

  /** A transfer; `tool`, `integrator` (`metadata.integrator`) and `explorerLink` are "" when absent. */
  datatype Transfer = Transfer(
    transactionId: string,
    sending: Leg,
    receiving: Leg,
    tool: string,
    integrator: string,
    explorerLink: string)

  /**
   * `parseFloat` on a decimal string: the number it reads, or `None` where it
   * yields NaN. The model takes it as a parameter.
   */
  type Parser = string -> Option<real>

  /** The parsed sending amount in USD; 0 when it is absent or does not parse. */
  function Volume(tx: Transfer, parse: Parser): (v: real)
    ensures tx.sending.amountUSD.None? ==> v == 0.0
    ensures tx.sending.amountUSD.Some? && parse(tx.sending.amountUSD.value).None? ==> v == 0.0
    ensures tx.sending.amountUSD.Some? && parse(tx.sending.amountUSD.value).Some? ==>
              v == parse(tx.sending.amountUSD.value).value
  {
    match tx.sending.amountUSD
    case None => 0.0
    case Some(s) => parse(s).GetOr(0.0)
  }

  /** The same transfer in the opposite direction: sending and receiving swap places. */
  function Swap(tx: Transfer): (r: Transfer)
    ensures r.sending == tx.receiving && r.receiving == tx.sending
  {
    tx.(sending := tx.receiving, receiving := tx.sending)
  }
}
