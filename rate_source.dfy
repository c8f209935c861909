/** Where the rate table of `servidor.py` comes from: the built-in fallback table, the map assembled
    from the two Banco Central do Brasil (BCB) PTAX quotes, and the BRL override that patches the
    primary provider's table with the BCB value. The primary and fallback tables give units of each
    currency per US dollar; the BCB map gives them per real (BRL is 1.0). The HTTP calls themselves
    are not modelled, their outcomes are inputs. */
module RateSource {
  import opened Wrappers

  type RateTable = map<string, real>

  /** The static table served when the primary provider cannot be reached. */
  function FallbackRates(): (r: RateTable)
    ensures "USD" in r && r["USD"] == 1.0
    ensures forall code :: code in r ==> r[code] > 0.0
  {
    map[
      "USD" := 1.0, "BRL" := 5.12, "EUR" := 0.92, "GBP" := 0.79,
      "JPY" := 149.50, "CAD" := 1.36, "AUD" := 1.53, "CHF" := 0.88,
      "CNY" := 7.24, "ARS" := 350.00, "MXN" := 17.20, "CLP" := 890.00]
  }

  /** The fallback table lists twelve distinct currency codes. */
  lemma FallbackRatesHasTwelveCodes()
    ensures |FallbackRates()| == 12
  {
  }

  /** What one BCB request yielded: the `cotacaoCompra` of the first entry of a 200 response with a
      non-empty `value` list, or nothing (another status, an empty list, a malformed payload or a
      network error, all of which the source swallows). */
  datatype BcbQuote = Quote(cotacaoCompra: real) | NoQuote

  /** The two BCB requests (dollar and euro), or `Unavailable` for the outer `except` of
      `get_bcb_rates`, which returns an empty map. */
  datatype BcbResponse = Responses(usd: BcbQuote, eur: BcbQuote) | Unavailable

  /** A quote is stored as `1.0 / cotacaoCompra`; a zero quote raises ZeroDivisionError, which the bare
      `except` around the request swallows, so nothing is stored. */
  predicate Usable(q: BcbQuote)
  {
    q.Quote? && q.cotacaoCompra != 0.0
  }

  /** The table `get_bcb_rates` returns: empty, or BRL at 1.0 plus the dollar and the euro when their
      quotes were usable. */
  function BcbTable(resp: BcbResponse): (r: RateTable)
    ensures resp.Unavailable? <==> r == map[]
    ensures r.Keys <= {"BRL", "USD", "EUR"}
    ensures resp.Responses? ==> "BRL" in r && r["BRL"] == 1.0
    ensures resp.Responses? ==> ("USD" in r <==> Usable(resp.usd)) && ("EUR" in r <==> Usable(resp.eur))
    ensures "USD" in r ==> r["USD"] * resp.usd.cotacaoCompra == 1.0
    ensures "EUR" in r ==> r["EUR"] * resp.eur.cotacaoCompra == 1.0
  {
    match resp
    case Unavailable => map[]
    case Responses(usd, eur) =>
      var withUsd := if Usable(usd) then map["BRL" := 1.0, "USD" := 1.0 / usd.cotacaoCompra] else map["BRL" := 1.0];
      if Usable(eur) then withUsd["EUR" := 1.0 / eur.cotacaoCompra] else withUsd
  }

  /** `get_bcb_rates`: starts from `{'BRL': 1.0}` and adds each usable quote in turn. */
  method BcbRates(resp: BcbResponse) returns (rates: RateTable)
    ensures rates == BcbTable(resp)
  {
    if resp.Unavailable? {
      return map[];
    }
    rates := map["BRL" := 1.0];
    if Usable(resp.usd) {
      rates := rates["USD" := 1.0 / resp.usd.cotacaoCompra];
    }
    if Usable(resp.eur) {
      rates := rates["EUR" := 1.0 / resp.eur.cotacaoCompra];
    }
  }

  /** The override step after a successful primary fetch: when the BCB map has a BRL entry other than
      1.0, the primary BRL rate is replaced by its reciprocal. `None` stands for the ZeroDivisionError
      a BRL entry of 0.0 would raise, which sends the caller to its fallback path. */
  function ApplyBrlOverride(primary: RateTable, bcb: RateTable): (r: Option<RateTable>)
    ensures r.None? <==> "BRL" in bcb && bcb["BRL"] == 0.0
    ensures ("BRL" !in bcb || bcb["BRL"] == 1.0) ==> r == Some(primary)
    ensures r.Some? ==> r.value.Keys == primary.Keys + (if "BRL" in bcb && bcb["BRL"] != 1.0 then {"BRL"} else {})
    ensures r.Some? ==> forall code :: code in primary && code != "BRL" ==> r.value[code] == primary[code]
    ensures r.Some? && "BRL" in bcb && bcb["BRL"] != 1.0 ==> r.value["BRL"] * bcb["BRL"] == 1.0
  {
    if "BRL" in bcb && bcb["BRL"] != 1.0 then
      if bcb["BRL"] == 0.0 then None else Some(primary["BRL" := 1.0 / bcb["BRL"]])
    else Some(primary)
  }

  /** The override never fires: whatever the BCB requests return, the primary provider's table is
      kept exactly as fetched, BRL rate included. */
  lemma BrlOverrideNeverFires(primary: RateTable, resp: BcbResponse)
    ensures ApplyBrlOverride(primary, BcbTable(resp)) == Some(primary)
  {
  }
}
