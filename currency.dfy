/**
 * The currency rule at the end of `trace_ip_addr_info`: an `if`/`elif`
 * chain on the three-letter country code with no `else`. Six branches set
 * the currency label; the `TPE` branch sets the country label instead.
 */
module Currency {
  import opened Records

  /** Which label the chain writes, and what. */
  datatype Effect =
    | SetCurrencyLabel(text: string)
    | SetCountryLabel(text: string)
    | NoEffect   // no branch matched: both labels keep their text

  /** The texts the chain writes, one per branch, spacing as in the source. */
  const UsdText: string := " - Currency : USD $"
  const KrwText: string := " - Currency : KWR ''"
  const JpyText: string := " - Currency : JPY \U{00A5}"
  const CnyText: string := " - Currency : CNY \U{00A5}"
  const TaiwanText: string := " - Currency :  TWD $"
  const UahText: string := " - Currency :  UAH \U{20B4}"
  const RubText: string := " - Currency :  RUS \U{20BD}"

  /** The chain, branch by branch, compared against the raw record value. */
  function Rule(code3: FieldValue): (e: Effect)
    ensures e != NoEffect ==> code3.Text?
    ensures e.SetCountryLabel? <==> code3 == Text("TPE")
    ensures e.SetCountryLabel? ==> e.text == TaiwanText
  {
    if code3 == Text("USA") then SetCurrencyLabel(UsdText)
    else if code3 == Text("KOR") then SetCurrencyLabel(KrwText)
    else if code3 == Text("JPN") then SetCurrencyLabel(JpyText)
    else if code3 == Text("CHN") then SetCurrencyLabel(CnyText)
    else if code3 == Text("TPE") then SetCountryLabel(TaiwanText)
    else if code3 == Text("UKR") then SetCurrencyLabel(UahText)
    else if code3 == Text("RUS") then SetCurrencyLabel(RubText)
    else NoEffect
  }

  /** The same rule as a finite table: country code to currency label text. */
  const CurrencyTable: map<string, string> := map[
    "USA" := UsdText,
    "KOR" := KrwText,
    "JPN" := JpyText,
    "CHN" := CnyText,
    "UKR" := UahText,
    "RUS" := RubText
  ]

  /**
   * The chain agrees with the table: the currency label is written exactly
   * for the six codes in the table, with the table's text; "TPE" writes
   * the Taiwan text to the country label; every other value, `None`
   * included, writes nothing.
   */
  lemma RuleIsTable(code3: FieldValue)
    ensures Rule(code3).SetCurrencyLabel? <==> code3.Text? && code3.text in CurrencyTable
    ensures Rule(code3).SetCurrencyLabel? ==> Rule(code3).text == CurrencyTable[code3.text]
    ensures Rule(code3) == SetCountryLabel(TaiwanText) <==> code3 == Text("TPE")
    ensures Rule(code3).SetCountryLabel? ==> code3 == Text("TPE")
    ensures Rule(code3) == NoEffect <==>
              !(code3.Text? && (code3.text in CurrencyTable || code3.text == "TPE"))
  {
  }
}
