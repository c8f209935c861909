/** The text protocol of `servidor.py`: `convert_currency` takes a request `FROM|TO|AMOUNT` and
    answers either `SUCESSO|FROM|TO|AMOUNT|RESULT|RATE|UPDATED|SOURCE` or `ERRO: <message>`.
    Python's `float()` is the `parse` parameter; the `.2f` and `.6f` renderings of numbers and the
    `strftime` rendering of the timestamp are the `Renderers` parameter. */
module TextProtocol {
  import opened Wrappers
  import opened Strings
  import opened RateSource
  import opened Cache

  /** A request once split, trimmed, upper-cased and parsed. */
  datatype Request = Request(from: string, to: string, amount: real)

  /** The error replies, in the order `convert_currency` checks for them. `DivisaoPorZero` is the
      ZeroDivisionError a zero source rate raises, reported through the catch-all `except`. */
  datatype ConversionError =
    | FormatoInvalido
    | ValorInvalido
    | MoedaNaoSuportada(code: string)
    | ValorNaoPositivo
    | DivisaoPorZero

  /** The text after `ERRO: ` for each error. */
  function Message(e: ConversionError): (m: string)
    ensures e.MoedaNaoSuportada? ==> |m| == |e.code| + 20 && m[6..6 + |e.code|] == e.code
  {
    match e
    case FormatoInvalido => "Formato inválido. Use: FROM|TO|AMOUNT"
    case ValorInvalido => "Valor inválido"
    case MoedaNaoSuportada(code) => "Moeda " + code + " não suportada"
    case ValorNaoPositivo => "Valor deve ser maior que zero"
    case DivisaoPorZero => "float division by zero"
  }

  /** Different errors are reported with different texts, so a reply names its error. */
  lemma MessageIdentifiesError(e1: ConversionError, e2: ConversionError)
    requires Message(e1) == Message(e2)
    ensures e1 == e2
  {
    var m := Message(e1);
    if e1.MoedaNaoSuportada? && e2.MoedaNaoSuportada? {
      assert e1.code == m[6..6 + |e1.code|] == e2.code;
    } else {
      assert Message(e1)[0] == Message(e2)[0];
    }
  }

  /** Which providers the reply credits: the BCB as well whenever the real is involved. */
  datatype Source = BcbApi | Api

  function SourceLabel(s: Source): string
  {
    match s
    case BcbApi => "BCB+API"
    case Api => "API"
  }

  datatype Reply =
    | Sucesso(from: string, to: string, amount: real, result: real, rate: real, updatedAt: int, source: Source)
    | Erro(error: ConversionError)

  /** `f"{x:.2f}"`, `f"{x:.6f}"` and `last_update.strftime('%Y-%m-%d %H:%M:%S')`. */
  datatype Renderers = Renderers(money: real -> string, rate: real -> string, time: int -> string)

  /** The three fields of a request line, when it has exactly three. */
  function Fields(message: string): seq<string>
  {
    Split(message, '|')
  }

  /** The parsing half of `convert_currency`: exactly three `|`-separated fields, codes trimmed and
      upper-cased, amount trimmed and parsed. */
  function ParseRequest(message: string, parse: string -> Option<real>): (r: Result<Request, ConversionError>)
    ensures r == Err(FormatoInvalido) <==> Count(message, '|') != 2
    ensures r == Err(ValorInvalido) <==> Count(message, '|') == 2 && parse(Strip(Fields(message)[2])).None?
    ensures r.Err? ==> r.error == FormatoInvalido || r.error == ValorInvalido
    ensures r.Ok? ==> Some(r.value.amount) == parse(Strip(Fields(message)[2]))
    ensures r.Ok? ==> '|' !in r.value.from && '|' !in r.value.to
    ensures r.Ok? ==> forall i :: 0 <= i < |r.value.from| ==> !IsLowerAscii(r.value.from[i])
    ensures r.Ok? ==> forall i :: 0 <= i < |r.value.to| ==> !IsLowerAscii(r.value.to[i])
  {
    var parts := Fields(message);
    if |parts| != 3 then Err(FormatoInvalido)
    else
      var from := Upper(Strip(parts[0]));
      var to := Upper(Strip(parts[1]));
      match parse(Strip(parts[2]))
      case None => Err(ValorInvalido)
      case Some(amount) =>
        assert '|' !in Strip(parts[0]) && '|' !in Strip(parts[1]) by {
          if '|' in Strip(parts[0]) { StripKeepsCharacters(parts[0], '|'); }
          if '|' in Strip(parts[1]) { StripKeepsCharacters(parts[1], '|'); }
        }
        UpperKeepsNonLetter(Strip(parts[0]), '|');
        UpperKeepsNonLetter(Strip(parts[1]), '|');
        Ok(Request(from, to, amount))
  }

  /** A line built from three separator-free fields parses to those fields, trimmed and upper-cased,
      or fails exactly when the amount does not parse. */
  lemma ParseRequestOfFields(from: string, to: string, amount: string, parse: string -> Option<real>)
    requires '|' !in from && '|' !in to && '|' !in amount
    ensures ParseRequest(from + "|" + to + "|" + amount, parse) ==
            match parse(Strip(amount))
            case None => Err(ValorInvalido)
            case Some(x) => Ok(Request(Upper(Strip(from)), Upper(Strip(to)), x))
  {
    var line := from + "|" + to + "|" + amount;
    assert Join([from, to, amount], '|') == line by {
      assert [from, to, amount][1..] == [to, amount];
      assert [to, amount][1..] == [amount];
      assert Join([to, amount], '|') == to + "|" + amount;
      assert from + "|" + (to + "|" + amount) == line;
    }
    SplitJoin([from, to, amount], '|');
  }

  /** The checks after the cache lookup, in the source's order: unknown source code, unknown
      destination code, non-positive amount, zero source rate; otherwise the conversion through the
      dollar. */
  function Evaluate(req: Request, table: RateTable, updatedAt: int): (r: Reply)
    ensures req.from !in table ==> r == Erro(MoedaNaoSuportada(req.from))
    ensures req.from in table && req.to !in table ==> r == Erro(MoedaNaoSuportada(req.to))
    ensures req.from in table && req.to in table && req.amount <= 0.0 ==> r == Erro(ValorNaoPositivo)
    ensures req.from in table && req.to in table && req.amount > 0.0 && table[req.from] == 0.0 ==> r == Erro(DivisaoPorZero)
    ensures r.Sucesso? <==> req.from in table && req.to in table && req.amount > 0.0 && table[req.from] != 0.0
    ensures r.Sucesso? ==>
              && r.from == req.from && r.to == req.to && r.amount == req.amount && r.updatedAt == updatedAt
              && r.rate * table[req.from] == table[req.to]
              && r.result == req.amount * r.rate
              && (r.source == BcbApi <==> req.from == "BRL" || req.to == "BRL")
  {
    if req.from !in table then Erro(MoedaNaoSuportada(req.from))
    else if req.to !in table then Erro(MoedaNaoSuportada(req.to))
    else if req.amount <= 0.0 then Erro(ValorNaoPositivo)
    else if table[req.from] == 0.0 then Erro(DivisaoPorZero)
    else
      var usdAmount := req.amount / table[req.from];
      var result := usdAmount * table[req.to];
      var rate := table[req.to] / table[req.from];
      var source := if req.to == "BRL" || req.from == "BRL" then BcbApi else Api;
      Sucesso(req.from, req.to, req.amount, result, rate, updatedAt, source)
  }

  /** Converting there and back on one table with positive rates gives the original amount, and the
      two rates are reciprocal. */
  lemma ConversionRoundTrip(req: Request, table: RateTable, updatedAt: int)
    requires req.from in table && req.to in table && table[req.from] > 0.0 && table[req.to] > 0.0
    requires req.amount > 0.0
    ensures var there := Evaluate(req, table, updatedAt);
            var back := Evaluate(Request(req.to, req.from, there.result), table, updatedAt);
            there.Sucesso? && back.Sucesso? && back.result == req.amount && there.rate * back.rate == 1.0
  {
    var f, t := table[req.from], table[req.to];
    var there := Evaluate(req, table, updatedAt);
    assert there.rate == t / f;
    assert there.result == req.amount * (t / f);
    assert there.result > 0.0;
    var back := Evaluate(Request(req.to, req.from, there.result), table, updatedAt);
    assert back.rate == f / t;
    assert back.result == req.amount * (t / f) * (f / t);
    assert (t / f) * (f / t) == 1.0;
  }

  /** With the fallback table, 100 dollars are 512 reais at the rate 5.12, credited to BCB+API. */
  lemma FallbackDollarToReal(updatedAt: int)
    ensures Evaluate(Request("USD", "BRL", 100.0), FallbackRates(), updatedAt)
            == Sucesso("USD", "BRL", 100.0, 512.0, 5.12, updatedAt, BcbApi)
  {
  }

  /** The reply line `convert_currency` returns. */
  function Render(r: Reply, fmt: Renderers): (line: string)
    ensures r.Erro? ==> |line| >= 6 && line[..6] == "ERRO: " && line[6..] == Message(r.error)
    ensures r.Sucesso? ==> |line| >= 8 && line[..8] == "SUCESSO|"
  {
    match r
    case Erro(e) => "ERRO: " + Message(e)
    case Sucesso(from, to, amount, result, rate, updatedAt, source) =>
      "SUCESSO|" + from + "|" + to + "|" + fmt.money(amount) + "|" + fmt.money(result) + "|"
      + fmt.rate(rate) + "|" + fmt.time(updatedAt) + "|" + SourceLabel(source)
  }

  /** The client's test, the first `|`-separated field being `SUCESSO`, recognises success replies
      and only those. */
  lemma ClientRecognisesSuccess(r: Reply, fmt: Renderers)
    ensures Split(Render(r, fmt), '|')[0] == "SUCESSO" <==> r.Sucesso?
  {
    var line := Render(r, fmt);
    match r
    case Sucesso(_, _, _, _, _, _, _) =>
      assert line == "SUCESSO" + ['|'] + line[8..];
      SplitAfterPiece("SUCESSO", line[8..], '|');
    case Erro(e) =>
      FirstPieceIsPrefix(line, '|');
  }

  /** The eight fields of a success reply, in the order the reply line lists them. */
  function SuccessFields(r: Reply, fmt: Renderers): (fields: seq<string>)
    requires r.Sucesso?
    ensures |fields| == 8 && fields[0] == "SUCESSO"
  {
    ["SUCESSO", r.from, r.to, fmt.money(r.amount), fmt.money(r.result), fmt.rate(r.rate),
     fmt.time(r.updatedAt), SourceLabel(r.source)]
  }

  /** A success line is its eight fields joined with `|`. */
  lemma SuccessLineIsJoin(r: Reply, fmt: Renderers)
    requires r.Sucesso?
    ensures Render(r, fmt) == Join(SuccessFields(r, fmt), '|')
  {
    var fields := SuccessFields(r, fmt);
    assert Join(fields[..1], '|') == "SUCESSO";
    JoinPrefixStep(fields, 1, '|');
    JoinPrefixStep(fields, 2, '|');
    JoinPrefixStep(fields, 3, '|');
    JoinPrefixStep(fields, 4, '|');
    JoinPrefixStep(fields, 5, '|');
    JoinPrefixStep(fields, 6, '|');
    JoinPrefixStep(fields, 7, '|');
    assert "SUCESSO" + ['|'] == "SUCESSO|";
    assert fields[..8] == fields;
  }

  /** A success line splits back into its eight fields when none of the codes and renderings holds a
      `|`. */
  lemma SuccessLineFields(r: Reply, fmt: Renderers)
    requires r.Sucesso?
    requires '|' !in r.from && '|' !in r.to
    requires '|' !in fmt.money(r.amount) && '|' !in fmt.money(r.result)
    requires '|' !in fmt.rate(r.rate) && '|' !in fmt.time(r.updatedAt)
    ensures Split(Render(r, fmt), '|') ==
            ["SUCESSO", r.from, r.to, fmt.money(r.amount), fmt.money(r.result), fmt.rate(r.rate),
             fmt.time(r.updatedAt), SourceLabel(r.source)]
  {
    var fields := SuccessFields(r, fmt);
    SuccessLineIsJoin(r, fmt);
    assert forall i :: 0 <= i < |fields| ==> '|' !in fields[i] by {
      assert '|' !in "SUCESSO" && '|' !in SourceLabel(r.source);
    }
    SplitJoin(fields, '|');
  }

  /** `convert_currency` against the shared cache: a request line that does not parse is answered
      without consulting the cache; one that parses consults it exactly once and is answered from
      the table and timestamp it returned. */
  method ConvertCurrency(message: string, parse: string -> Option<real>, cache: RateCache, now: int,
                         outcome: FetchOutcome, fmt: Renderers) returns (response: string)
    modifies cache
    ensures match ParseRequest(message, parse)
            case Err(e) =>
              && response == Render(Erro(e), fmt)
              && cache.State() == old(cache.State()) && cache.lookups == old(cache.lookups)
            case Ok(req) =>
              var l := GetRates(old(cache.State()), now, outcome);
              && response == Render(Evaluate(req, l.table, l.updatedAt), fmt)
              && cache.State() == l.next && cache.lookups == old(cache.lookups) + 1
  {
    var parts := Split(message, '|');
    if |parts| != 3 {
      return Render(Erro(FormatoInvalido), fmt);
    }
    var from := Upper(Strip(parts[0]));
    var to := Upper(Strip(parts[1]));
    var amount := parse(Strip(parts[2]));
    if amount.None? {
      return Render(Erro(ValorInvalido), fmt);
    }
    var table, updatedAt := cache.GetExchangeRates(now, outcome);
    response := Render(Evaluate(Request(from, to, amount.value), table, updatedAt), fmt);
  }
}
