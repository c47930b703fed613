/**
  Reading a money amount typed by the user. `Double(_:)` is not modelled: a parser is a
  parameter that either yields an exact amount or fails. The entry forms first turn decimal
  commas into points.
 */
module AmountInput {
  import opened Wrappers
  import opened Text
  import opened Transactions

  /** A partial reading of text as an amount, standing for `Double(_:)`. */
  type Parser = string -> Option<Amount>

  /** `Double(text.replacingOccurrences(of: ",", with: "."))`. */
  function ParseAmount(parse: Parser, text: string): Option<Amount> {
    parse(ReplaceChar(text, ',', '.'))
  }
}
