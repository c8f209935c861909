# Currency conversion servers, modelled in Dafny

This project models the request handling of three small Python currency servers.

- `servidor.py` is a TCP server that answers `FROM|TO|AMOUNT` text requests. It converts through
  the US dollar using a table of exchange rates. The table is served from a cache while the seconds component of its age is under an hour. It comes from a
  primary provider (exchangerate-api), with the Banco Central do Brasil (BCB) PTAX quotes fetched
  alongside. A built-in fallback table is served when the primary provider fails.
- `servidor-clientes-simultaneos.py` answers JSON requests with the actions LISTAR, CONSULTAR and
  CONVERTER, over a fixed table of rates (how much of each currency one real buys).
- `aplicacao.py` answers only the JSON action "LISTAR MOEDAS", over the same kind of table.

Rates and amounts are `real`s and timestamps are whole seconds. The clock, the network and Python's
`float()` are parameters:
- `now` is the clock.
- `FetchOutcome` and `BcbResponse` stand for what the network returned.
- `parse: string -> Option<real>` is `float()`.
- `Renderers` are the `.2f`, `.6f` and `strftime` renderings.

Modules, one per component:

- `Strings` (`strings.dfy`): Python's `str.split('|')`, `str.strip()` and `str.upper()`. `Split` is
  proved to be the inverse of `Join` on separator-free pieces.
- `RateSource` (`rate_source.dfy`): the fallback table (`get_fallback_rates`) and the BCB map
  (`get_bcb_rates`, a method that builds the map step by step). It also holds the BRL override of
  `get_exchange_rates`, which is proved never to fire.
- `Cache` (`cache.dfy`): the cache contents, the pure specification `GetRates` of
  `get_exchange_rates`, and the class `RateCache`. Its method `GetExchangeRates` updates the fields
  `rates` and `lastUpdate` in place and is proved against `GetRates`.
- `TextProtocol` (`text_protocol.dfy`): `convert_currency` as the method `ConvertCurrency`. It is
  built from a parsing function (`ParseRequest`), the checks and arithmetic after the cache lookup
  (`Evaluate`) and the reply line (`Render`).
- `Json`, `ServidorSimultaneo`, `Aplicacao`: JSON values and the two `handlerDeMensagem`
  dispatchers as pure functions of the table and the decoded message.

The freshness test of the cache compares `(now - last_update).seconds`, not the total elapsed time.
That is the seconds component of a `timedelta`, which is always below 86400. The model keeps this:
`Cache.TimedeltaSeconds` is the difference modulo 86400. `Cache.FreshnessRepeatsDaily` and
`Cache.DayOldEntryIsServed` prove the consequence. A table fetched at second 0 is served again as
fresh at one day and ten minutes, whatever the provider would now return.

Some further behaviour of `servidor.py` that the model keeps:

- The reply prefixes are `SUCESSO` and `ERRO: `.
- A failed fetch serves the fallback table without storing it in the cache.
- Currency codes are not checked for shape (three letters). They are only looked up in the table.
- The amount is parsed before the cache is consulted, and it is checked for being positive only
  after both codes were found.

## Model

| member | source | states |
|---|---|---|
| `Strings.Split` | servidor.py:131 | `message.split('\|')`: as many pieces as separators plus one, none holding the separator, and joining them back gives the message |
| `Strings.SplitJoin` | servidor.py:131-133 | splitting a join of separator-free pieces gives the pieces back, so a line with exactly two `\|` has exactly three fields |
| `Strings.Strip` | servidor.py:136-138 | `strip()` returns the infix left after dropping Python's whitespace at both ends; the dropped ends are all whitespace and the result neither starts nor ends with it |
| `Strings.StripIdempotent` | servidor.py:136-138 | stripping twice gives what stripping once gives |
| `Strings.Upper` | servidor.py:136-137 | `upper()` keeps the length, turns every lower-case ASCII letter into its capital (code point 32 lower) and keeps every other character |
| `Strings.UpperIdempotent` | servidor.py:136-137 | upper-casing twice gives what upper-casing once gives |
| `Strings.UpperKeepsNonLetter` | servidor.py:136-137 | upper-casing neither adds nor removes a non-letter such as `\|` |
| `RateSource.FallbackRates` | servidor.py:106-120 | the fallback table maps USD to 1.0 and every code to a positive rate |
| `RateSource.FallbackRatesHasTwelveCodes` | servidor.py:106-120 | the fallback table has exactly twelve codes |
| `RateSource.BcbTable` | servidor.py:22-59 | the BCB map is empty only on the outer failure, otherwise holds BRL at 1.0; only USD and EUR are added, each exactly when its quote is usable, as the reciprocal of the quote |
| `RateSource.BcbRates` | servidor.py:22-59 | the map built step by step from `{'BRL': 1.0}` is `BcbTable` of the responses |
| `RateSource.ApplyBrlOverride` | servidor.py:88-89 | the override replaces BRL only when the BCB map has a BRL entry other than 1.0, raises (`None`) only on a zero entry, writes the reciprocal of that entry as the BRL rate, and changes no other code |
| `RateSource.BrlOverrideNeverFires` | servidor.py:87-89 | for every BCB outcome the override leaves the primary table exactly as fetched, BRL included |
| `Cache.TimedeltaSeconds` | servidor.py:72 | `timedelta.seconds` is the unique value in [0, 86400) congruent to the difference modulo a day |
| `Cache.IsFresh` | servidor.py:70-72 | no timestamp or an empty table is a miss; a non-empty table less than 3600 s old is a hit; one between 3600 s and a day old is a miss |
| `Cache.GetRates` | servidor.py:65-103 | a fresh cache is served unchanged with its own timestamp; otherwise a successful fetch is served stamped `now` and becomes the cache, and a failed fetch serves the fallback table stamped `now` and leaves the cache as it was |
| `Cache.FreshWithinDuration` | servidor.py:70-74 | a non-empty table fetched less than 3600 seconds ago is a cache hit |
| `Cache.FreshnessRepeatsDaily` | servidor.py:72 | freshness at `now` and at `now` plus one day coincide, because only the seconds component is compared |
| `Cache.DayOldEntryIsServed` | servidor.py:70-74 | a table fetched at second 0 is served unchanged at one day and ten minutes |
| `Cache.SecondCallWithinDurationHitsCache` | servidor.py:70-97 | after a successful fetch of a non-empty table, a call within the cache duration returns the same table and timestamp and changes nothing |
| `Cache.FailingSourceNeverCaches` | servidor.py:98-103 | with a source that always fails, every call leaves the cache as it was and a stale cache is answered with the fallback table stamped with the call's time |
| `Cache.FailingSourceFromStartupServesFallback` | servidor.py:9-13 | from the empty startup cache, a source that always fails makes every call serve the fallback table stamped with its time |
| `Cache.RateCache.constructor` | servidor.py:9-13 | the cache starts with no rates and no timestamp |
| `Cache.RateCache.GetExchangeRates` | servidor.py:65-103 | returns the table and timestamp `GetRates` gives for the old fields and leaves the fields as `GetRates` says; counts one lookup |
| `TextProtocol.ParseRequest` | servidor.py:131-138 | the format error occurs exactly when the line does not hold two `\|`, the value error exactly when the third field does not parse; parsed codes hold no `\|` and no lower-case ASCII letter |
| `TextProtocol.ParseRequestOfFields` | servidor.py:131-138 | the line `f\|t\|a` parses to `f` and `t` trimmed and upper-cased and to the parse of `a` trimmed |
| `TextProtocol.Evaluate` | servidor.py:142-157 | unknown source code, then unknown destination code, then non-positive amount, then a zero source rate (reported as the division error) are reported in that order; success exactly when both codes are known, the amount is positive and the source rate is non-zero, with `rate * rates[from] == rates[to]`, `result == amount * rate`, and source BCB+API exactly when either code is BRL |
| `TextProtocol.ConversionRoundTrip` | servidor.py:151-153 | converting back with the same table gives the original amount, and the two rates multiply to 1 |
| `TextProtocol.FallbackDollarToReal` | servidor.py:151-157 | with the fallback table 100 USD are 512 BRL at rate 5.12, credited to BCB+API |
| `TextProtocol.Message` | servidor.py:133-165 | the text of each error; the unsupported-currency text names the code, at a fixed position |
| `TextProtocol.MessageIdentifiesError` | servidor.py:133-165 | two errors with the same text are the same error, so every error reply names its cause |
| `TextProtocol.Render` | servidor.py:128-165 | an error reply is `ERRO: ` followed by the error's text; a success reply starts with `SUCESSO\|` |
| `TextProtocol.SuccessLineFields` | servidor.py:159 | a success line splits back into its eight fields `SUCESSO`, codes, amount, result, rate, time and source |
| `TextProtocol.ClientRecognisesSuccess` | servidor.py:122-127 | the first `\|`-field of a reply is `SUCESSO` exactly for success replies, never for an `ERRO: ` line |
| `TextProtocol.ConvertCurrency` | servidor.py:128-165 | a line that fails to parse is answered with its error and leaves the cache untouched; a parsed line consults the cache exactly once and is answered by `Evaluate` on the table and timestamp the cache returned |
| `Json.GetOr` | servidor-clientes-simultaneos.py:41 | `dict.get(key, default)`: the value under the key, or the default when the key is absent |
| `Json.Get` | servidor-clientes-simultaneos.py:32-40 | `dict.get(key)` is `None` exactly when the key is absent or holds JSON `null` |
| `Json.Number` | servidor-clientes-simultaneos.py:44 | only booleans, integers and floats can be multiplied by a rate; a boolean counts as 1 or 0, a number as itself |
| `ServidorSimultaneo.RateOf` | servidor-clientes-simultaneos.py:37-42 | a table lookup finds a rate exactly for a string value that is a code of the table |
| `ServidorSimultaneo.Convertible` | servidor-clientes-simultaneos.py:42-43 | `if taxa:` holds exactly for a string MOEDA that is a code of the table with a non-zero rate |
| `ServidorSimultaneo.ErrorText` | servidor-clientes-simultaneos.py:46-48 | the unknown-action text, and a not-found text that quotes a string MOEDA between `Moeda '` and `' não encontrada.` |
| `ServidorSimultaneo.HandlerDeMensagem` | servidor-clientes-simultaneos.py:30-48 | LISTAR returns the table; an unknown or missing action returns the unknown-action error; the handler returns nothing exactly for CONSULTAR with a hashable value that is not a code; it raises exactly for CONSULTAR or CONVERTER with an unhashable MOEDA, or for CONVERTER with a MOEDA of non-zero rate and a VALOR that is not a number |
| `ServidorSimultaneo.ConsultarKnownCode` | servidor-clientes-simultaneos.py:36-38 | CONSULTAR with a code of the table returns its rate |
| `ServidorSimultaneo.ConverterKnownCode` | servidor-clientes-simultaneos.py:39-44 | CONVERTER with a code of non-zero rate returns VALOR times that rate |
| `ServidorSimultaneo.ConverterUnknownCode` | servidor-clientes-simultaneos.py:42-46 | CONVERTER with an unknown code, or one of rate zero, returns the not-found error naming the value |
| `ServidorSimultaneo.ConverterWithoutValorQuotesRate` | servidor-clientes-simultaneos.py:36-44 | CONVERTER without VALOR answers with the same rate CONSULTAR quotes for that code |
| `ServidorSimultaneo.ListaMoedasRates` | servidor-clientes-simultaneos.py:21-24 | every rate of the table is positive and BRL is not a code |
| `ServidorSimultaneo.ListaMoedasHasNineCodes` | servidor-clientes-simultaneos.py:21-24 | the table has nine codes |
| `ServidorSimultaneo.ReplyJson` | servidor-clientes-simultaneos.py:34-48 | every reply the handler returns is sent as an object with exactly one key: the listing carries the table, a quote its rate, a conversion its value, an error its text. When the handler returns `None` (`HandlerDeMensagem` gives `Returned(None)`), `json.dumps` sends `null` instead, which `ReplyJson` does not cover |
| `Aplicacao.HandlerDeMensagem` | aplicacao.py:39-44 | the table is returned exactly when the action is the string "LISTAR MOEDAS"; every other reply is the unknown-action error |
| `Aplicacao.ReplyJson` | aplicacao.py:41-44 | every reply is an object with the single key MOEDAS or ERRO, MOEDAS exactly for the listing |
| `Aplicacao.ListarAloneIsUnknown` | aplicacao.py:41-44 | the plain action "LISTAR" is answered with the unknown-action error |
| `Aplicacao.MissingActionIsUnknown` | aplicacao.py:41-44 | a message without an action is answered with the unknown-action error |
| `Aplicacao.EveryReplyIsSingleKey` | aplicacao.py:41-44 | whatever the message, the reply object is the listing of the table or the unknown-action error |
| `Aplicacao.ListaMoedasRates` | aplicacao.py:23-33 | every rate of the table is positive and BRL is not a code |
| `Aplicacao.ListaMoedasHasNineCodes` | aplicacao.py:23-33 | the table has nine codes |

## Left out

- Sockets, `accept`/`recv`/`send`, idle timeouts, the accept and client loops, the `threadClientes` registry and the `cliente` and `__main__` demonstrations: these are transport and process plumbing.
- The locks and the `client_counter`/`active_clients` counters: concurrency bookkeeping. Each call of `get_exchange_rates` is one atomic step.
- The HTTP requests and the decoding of their JSON payloads: they become the `FetchOutcome` and `BcbResponse` inputs. A non-200 status and an exception are the same `Failed` outcome because the source treats them alike.
- `get_bcb_rates` takes the date from the clock to build its URLs. The date is part of the network abstraction.
- IEEE-754 behaviour: `nan`/`inf` amounts, rounding, the `.2f`/`.6f` renderings and the `strftime` rendering are the `parse` and `Renderers` parameters.
- `Strings.Upper`: maps only ASCII letters. Python's full Unicode case mapping is not modelled, including mappings that change the length, such as ß to SS.
- Timestamps are whole seconds. The microseconds of `datetime.now()` are dropped, so `timedelta.seconds` is taken over whole seconds.
- `ServidorSimultaneo.HandlerDeMensagem`: does not model the OverflowError Python raises when a very large JSON integer VALOR is multiplied by a float. Integers are exact here.
- `ServidorSimultaneo.ErrorText`: Python's `str()` of an integer or float MOEDA value is a parameter. Strings, `None` and booleans are written out.
- A request that decodes to a JSON value other than an object, for which `.get` raises AttributeError: `Message` is a JSON object by construction.
- cliente.py is not part of this model: it is an interactive script.
