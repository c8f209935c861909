/** The message handler of `ServidorAtendimento` in `aplicacao.py`: the only action it knows is
    "LISTAR MOEDAS", answered with the server's fixed `listaMoedas` table; every other request is an
    error. The handler only reads the table, so it is a function of the table and the message. */
module Aplicacao {
  import opened Json

  /** The table `__init__` installs: how much of each currency one real buys. */
  const ListaMoedas: map<string, real> := map[
    "USD" := 0.18, "EUR" := 0.16, "GBP" := 0.13, "JPY" := 28.50, "AUD" := 0.27,
    "CAD" := 0.24, "CHF" := 0.16, "CNY" := 1.27, "ARS" := 32.50]

  const AcaoDesconhecida: string := "AÇÃO desconhecida"

  datatype Reply = Moedas(table: map<string, real>) | Erro(message: string)

  /** `handlerDeMensagem`: the table exactly when the action is the string "LISTAR MOEDAS", and the
      unknown-action error otherwise. */
  function HandlerDeMensagem(listaMoedas: map<string, real>, mensagem: Message): (r: Reply)
    ensures r.Moedas? <==> "AÇÃO" in mensagem && mensagem["AÇÃO"] == Str("LISTAR MOEDAS")
    ensures r.Moedas? ==> r.table == listaMoedas
    ensures r.Erro? ==> r.message == AcaoDesconhecida
  {
    if Get(mensagem, "AÇÃO") == Str("LISTAR MOEDAS") then Moedas(listaMoedas)
    else Erro(AcaoDesconhecida)
  }

  /** The JSON object a reply is sent as: a single key, MOEDAS or ERRO. */
  function ReplyJson(r: Reply): (j: Message)
    ensures |j| == 1
    ensures j.Keys == {"MOEDAS"} || j.Keys == {"ERRO"}
    ensures "MOEDAS" in j <==> r.Moedas?
    ensures r.Moedas? ==> j["MOEDAS"] == TableValue(r.table)
    ensures r.Erro? ==> j["ERRO"] == Str(r.message)
  {
    match r
    case Moedas(t) => map["MOEDAS" := TableValue(t)]
    case Erro(m) => map["ERRO" := Str(m)]
  }

  /** The action of the other server, plain "LISTAR", is not understood here. */
  lemma ListarAloneIsUnknown(listaMoedas: map<string, real>)
    ensures HandlerDeMensagem(listaMoedas, map["AÇÃO" := Str("LISTAR")]) == Erro(AcaoDesconhecida)
  {
    assert |"LISTAR"| != |"LISTAR MOEDAS"|;
  }

  /** A message without an action is not understood either. */
  lemma MissingActionIsUnknown(listaMoedas: map<string, real>, mensagem: Message)
    requires "AÇÃO" !in mensagem
    ensures HandlerDeMensagem(listaMoedas, mensagem) == Erro(AcaoDesconhecida)
  {
  }

  /** Whatever the request, the reply is one of the two single-key objects, and only the listing
      carries the table. */
  lemma EveryReplyIsSingleKey(listaMoedas: map<string, real>, mensagem: Message)
    ensures var j := ReplyJson(HandlerDeMensagem(listaMoedas, mensagem));
            j == map["MOEDAS" := TableValue(listaMoedas)] || j == map["ERRO" := Str(AcaoDesconhecida)]
  {
  }

  /** The installed table holds positive rates only, and the real itself is not one of its codes. */
  lemma ListaMoedasRates()
    ensures forall code :: code in ListaMoedas ==> ListaMoedas[code] > 0.0
    ensures "BRL" !in ListaMoedas
  {
  }

  /** The installed table has nine distinct codes. */
  lemma ListaMoedasHasNineCodes()
    ensures |ListaMoedas| == 9
  {
  }
}
