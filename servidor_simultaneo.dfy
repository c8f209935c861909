/** The message handler of `ServidorAtendimento` in `servidor-clientes-simultaneos.py`: a decoded
    JSON request names an action (`AÇÃO`) among LISTAR, CONSULTAR and CONVERTER and is answered from
    the server's fixed `listaMoedas` table (units of each currency per real). The handler only reads
    the table, so it is a function of the table and the message. */
module ServidorSimultaneo {
  import opened Wrappers
  import opened Json

  /** The table `__init__` installs. */
  const ListaMoedas: map<string, real> := map[
    "USD" := 0.18, "EUR" := 0.16, "GBP" := 0.13, "JPY" := 28.50,
    "AUD" := 0.27, "CAD" := 0.24, "CHF" := 0.16, "CNY" := 1.27, "ARS" := 32.50]

  datatype HandlerError =
    | AcaoDesconhecida
    | MoedaNaoEncontrada(moeda: Value)

  /** The replies, each a one-key JSON object. */
  datatype Reply =
    | Moedas(table: map<string, real>)
    | Cotacao(rate: real)
    | ValorConvertido(value: real)
    | Erro(error: HandlerError)

  /** What the handler does: return a reply, return `None` (the CONSULTAR branch that falls through),
      or raise TypeError (an unhashable MOEDA, or a VALOR that cannot be multiplied by a rate). */
  datatype Handled = Returned(reply: Option<Reply>) | RaisesTypeError

  predicate IsAction(m: Message, action: string)
  {
    Get(m, "AÇÃO") == Str(action)
  }

  /** The rate `listaMoedas.get(moeda)` finds for a hashable value: only a string key can match. */
  function RateOf(listaMoedas: map<string, real>, moeda: Value): (r: Option<real>)
    ensures r.Some? <==> moeda.Str? && moeda.s in listaMoedas
    ensures r.Some? ==> r.value == listaMoedas[moeda.s]
  {
    if moeda.Str? && moeda.s in listaMoedas then Some(listaMoedas[moeda.s]) else None
  }

  /** The rate CONVERTER applies: a table entry that is truthy, i.e. present and non-zero. */
  function Convertible(listaMoedas: map<string, real>, moeda: Value): (b: bool)
    ensures b <==> moeda.Str? && moeda.s in listaMoedas && listaMoedas[moeda.s] != 0.0
  {
    RateOf(listaMoedas, moeda).Some? && RateOf(listaMoedas, moeda).value != 0.0
  }

  /** `handlerDeMensagem`: LISTAR lists the table, CONSULTAR quotes one code, CONVERTER multiplies
      VALOR (1.0 when absent) by one code's rate, and any other action is an error. Only CONSULTAR
      can return nothing, and only CONSULTAR and CONVERTER can raise. */
  function HandlerDeMensagem(listaMoedas: map<string, real>, mensagem: Message): (h: Handled)
    ensures IsAction(mensagem, "LISTAR") ==> h == Returned(Some(Moedas(listaMoedas)))
    ensures (!IsAction(mensagem, "LISTAR") && !IsAction(mensagem, "CONSULTAR") && !IsAction(mensagem, "CONVERTER"))
              ==> h == Returned(Some(Erro(AcaoDesconhecida)))
    ensures h == Returned(None) <==>
              IsAction(mensagem, "CONSULTAR") && Hashable(Get(mensagem, "MOEDA"))
              && RateOf(listaMoedas, Get(mensagem, "MOEDA")).None?
    ensures h.RaisesTypeError? <==>
              || ((IsAction(mensagem, "CONSULTAR") || IsAction(mensagem, "CONVERTER")) && !Hashable(Get(mensagem, "MOEDA")))
              || (IsAction(mensagem, "CONVERTER") && Convertible(listaMoedas, Get(mensagem, "MOEDA"))
                  && Number(GetOr(mensagem, "VALOR", Float(1.0))).None?)
  {
    var acao := Get(mensagem, "AÇÃO");
    if acao == Str("LISTAR") then
      Returned(Some(Moedas(listaMoedas)))
    else if acao == Str("CONSULTAR") then
      var moeda := Get(mensagem, "MOEDA");
      if !Hashable(moeda) then RaisesTypeError
      else if moeda.Str? && moeda.s in listaMoedas then Returned(Some(Cotacao(listaMoedas[moeda.s])))
      else Returned(None)
    else if acao == Str("CONVERTER") then
      var moeda := Get(mensagem, "MOEDA");
      var valor := GetOr(mensagem, "VALOR", Float(1.0));
      if !Hashable(moeda) then RaisesTypeError
      else
        var taxa := RateOf(listaMoedas, moeda);
        if Convertible(listaMoedas, moeda) then
          match Number(valor)
          case None => RaisesTypeError
          case Some(v) => Returned(Some(ValorConvertido(v * taxa.value)))
        else Returned(Some(Erro(MoedaNaoEncontrada(moeda))))
    else
      Returned(Some(Erro(AcaoDesconhecida)))
  }

  /** CONSULTAR with a code of the table returns its rate. */
  lemma ConsultarKnownCode(listaMoedas: map<string, real>, mensagem: Message, code: string)
    requires IsAction(mensagem, "CONSULTAR") && Get(mensagem, "MOEDA") == Str(code) && code in listaMoedas
    ensures HandlerDeMensagem(listaMoedas, mensagem) == Returned(Some(Cotacao(listaMoedas[code])))
  {
  }

  /** CONVERTER with a code whose rate is non-zero multiplies the amount by that rate. */
  lemma ConverterKnownCode(listaMoedas: map<string, real>, mensagem: Message, code: string, amount: real)
    requires IsAction(mensagem, "CONVERTER") && Get(mensagem, "MOEDA") == Str(code)
    requires code in listaMoedas && listaMoedas[code] != 0.0
    requires Number(GetOr(mensagem, "VALOR", Float(1.0))) == Some(amount)
    ensures HandlerDeMensagem(listaMoedas, mensagem) == Returned(Some(ValorConvertido(amount * listaMoedas[code])))
  {
    assert "CONVERTER"[3] != "CONSULTAR"[3];
    assert |"CONVERTER"| != |"LISTAR"|;
    var h := HandlerDeMensagem(listaMoedas, mensagem);
    assert h.reply.value.value == amount * listaMoedas[code];
  }

  /** CONVERTER with a hashable MOEDA that is not a code of the table, or whose rate is zero, answers
      with an error naming that value. */
  lemma ConverterUnknownCode(listaMoedas: map<string, real>, mensagem: Message)
    requires IsAction(mensagem, "CONVERTER") && Hashable(Get(mensagem, "MOEDA"))
    requires !Convertible(listaMoedas, Get(mensagem, "MOEDA"))
    ensures HandlerDeMensagem(listaMoedas, mensagem) == Returned(Some(Erro(MoedaNaoEncontrada(Get(mensagem, "MOEDA")))))
  {
  }

  /** Without VALOR, CONVERTER converts one unit: it answers with the very rate CONSULTAR quotes for
      the same code. */
  lemma ConverterWithoutValorQuotesRate(listaMoedas: map<string, real>, mensagem: Message, code: string)
    requires IsAction(mensagem, "CONVERTER") && Get(mensagem, "MOEDA") == Str(code) && "VALOR" !in mensagem
    requires code in listaMoedas && listaMoedas[code] != 0.0
    ensures var quote := HandlerDeMensagem(listaMoedas, mensagem["AÇÃO" := Str("CONSULTAR")]);
            quote.Returned? && quote.reply.Some? && quote.reply.value.Cotacao?
            && HandlerDeMensagem(listaMoedas, mensagem) == Returned(Some(ValorConvertido(quote.reply.value.rate)))
  {
    var consultar := mensagem["AÇÃO" := Str("CONSULTAR")];
    assert Get(consultar, "MOEDA") == Str(code);
    ConsultarKnownCode(listaMoedas, consultar, code);
    ConverterKnownCode(listaMoedas, mensagem, code, 1.0);
  }

  /** The installed table holds positive rates only, and the real itself is not one of its codes. */
  lemma ListaMoedasRates()
    ensures forall code :: code in ListaMoedas ==> ListaMoedas[code] > 0.0
    ensures "BRL" !in ListaMoedas
  {
  }

  /** The installed table has nine distinct codes. */
  lemma ListaMoedasHasNineCodes()
    ensures |ListaMoedas| == 9
  {
  }

  /** The key of the one-key object each reply is written as. */
  function ReplyKey(r: Reply): string
  {
    match r
    case Moedas(_) => "MOEDAS"
    case Cotacao(_) => "COTAÇÃO"
    case ValorConvertido(_) => "VALOR_CONVERTIDO"
    case Erro(_) => "ERRO"
  }

  /** The text of an error, given Python's `str()` of the MOEDA value for the numbers it can hold;
      a string is written as it is and `None` as "None". */
  function ErrorText(e: HandlerError, show: Value -> string): (t: string)
    ensures e.AcaoDesconhecida? ==> t == "AÇÃO desconhecida"
    ensures e.MoedaNaoEncontrada? && e.moeda.Str? ==>
              |t| == |e.moeda.s| + 24 && t[..7] == "Moeda '" && t[7..7 + |e.moeda.s|] == e.moeda.s
  {
    match e
    case AcaoDesconhecida => "AÇÃO desconhecida"
    case MoedaNaoEncontrada(moeda) =>
      var shown := match moeda
        case Str(s) => s
        case Null => "None"
        case Bool(b) => if b then "True" else "False"
        case _ => show(moeda);
      "Moeda '" + shown + "' não encontrada."
  }

  /** The JSON object the reply is sent as: exactly one key. */
  function ReplyJson(r: Reply, show: Value -> string): (j: Message)
    ensures j.Keys == {ReplyKey(r)}
    ensures r.Moedas? ==> j[ReplyKey(r)] == TableValue(r.table)
    ensures r.Erro? ==> j[ReplyKey(r)] == Str(ErrorText(r.error, show))
    ensures r.Cotacao? ==> j["COTAÇÃO"] == Float(r.rate)
    ensures r.ValorConvertido? ==> j["VALOR_CONVERTIDO"] == Float(r.value)
  {
    var v := match r
      case Moedas(t) => TableValue(t)
      case Cotacao(x) => Float(x)
      case ValorConvertido(x) => Float(x)
      case Erro(e) => Str(ErrorText(e, show));
    map[ReplyKey(r) := v]
  }
}
