/** The symbol shown next to a salary for the selected payment currency. */
module CurrencyUtils {
  /** `currencySymbols`. */
  const CurrencySymbols: map<string, string> := map["Real" := "R$", "Dólar" := "$", "Euro" := "€"]

  /** `currencySymbols[currency] || ""`: a missing key and an empty symbol both give "". */
  function GetCurrencySymbol(currency: string): (symbol: string)
    ensures symbol == "R$" || symbol == "$" || symbol == "€" || symbol == ""
    ensures symbol == "" <==> currency != "Real" && currency != "Dólar" && currency != "Euro"
  {
    if currency in CurrencySymbols && CurrencySymbols[currency] != "" then CurrencySymbols[currency] else ""
  }

  /** The three known currencies and their symbols. */
  lemma KnownSymbols()
    ensures GetCurrencySymbol("Real") == "R$"
    ensures GetCurrencySymbol("Dólar") == "$"
    ensures GetCurrencySymbol("Euro") == "€"
  {
  }
}
