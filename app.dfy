/** app/Main.java: the second version of the app. Transactions carry the
    name of a savings goal, goals ("metas") have an optional target and an
    accumulated value, and a transaction of kind "Entrada" with category
    "Adicionar à Meta" moves money from the balance into a goal. */
module App {
  import opened Wrappers
  import JavaText
  import Amounts
  import LineFiles

  const ENTRADA := "Entrada"
  const SAIDA := "Saída"
  const ADICIONAR_A_META := "Adicionar à Meta"

  /** The record `Transacao(tipo, valor, categoria, meta)`; `meta` is the
      goal's name, or "" when none was chosen. */
  datatype Transacao = Transacao(tipo: string, valor: int, categoria: string, meta: string)

  /** A goal: `valorAlvo` is `None` for a goal without a target (Java null). */
  datatype Meta = Meta(nome: string, valorAlvo: Option<int>, valorAtual: int)

  /** What `restanteParaAlvo` returns; `Ilimitado` stands for
      `Double.MAX_VALUE`, the answer for a goal without a target. */
  datatype Restante = Ilimitado | Limite(valor: int)

  function Min(a: int, b: int): int
  {
    if a <= b then a else b
  }

  function Max(a: int, b: int): int
  {
    if a >= b then a else b
  }

  predicate PossuiAlvo(m: Meta)
  {
    m.valorAlvo.Some?
  }

  /** `estaAlcancada`: there is a target and the value has reached it. A
      goal without a target is never reached, and a goal with one is reached
      exactly when not even one more cent fits under its target. */
  predicate EstaAlcancada(m: Meta)
    ensures EstaAlcancada(m) <==> PossuiAlvo(m) && !Cabe(m, 1)
  {
    PossuiAlvo(m) && m.valorAtual >= m.valorAlvo.value
  }

  /** `restanteParaAlvo`: how much is still missing, never negative; nothing
      is missing exactly when the goal is reached, and adding what is missing
      to a goal not yet reached lands exactly on its target. */
  function RestanteParaAlvo(m: Meta): (r: Restante)
    ensures r.Ilimitado? <==> !PossuiAlvo(m)
    ensures r.Limite? ==> r.valor >= 0
    ensures r.Limite? ==> (r.valor == 0 <==> EstaAlcancada(m))
    ensures r.Limite? && r.valor > 0 ==> m.valorAtual + r.valor == m.valorAlvo.value
  {
    match m.valorAlvo
    case None => Ilimitado
    case Some(alvo) => Limite(Max(alvo - m.valorAtual, 0))
  }

  /** `progresso`: 0 without a target or with a target of 0, never above 1,
      not negative for a positive target and a value that is not negative,
      and, for a positive target, 1 exactly when the goal is reached. */
  function Progresso(m: Meta): (r: real)
    ensures r <= 1.0
    ensures !PossuiAlvo(m) || m.valorAlvo.value == 0 ==> r == 0.0
    ensures PossuiAlvo(m) && m.valorAlvo.value > 0 && m.valorAtual >= 0 ==> r >= 0.0
    ensures PossuiAlvo(m) && m.valorAlvo.value > 0 ==> (r == 1.0 <==> EstaAlcancada(m))
  {
    if m.valorAlvo.None? || m.valorAlvo.value == 0 then 0.0
    else
      var alvo := m.valorAlvo.value as real;
      var atual := m.valorAtual as real;
      var q := atual / alvo;
      assert alvo > 0.0 ==> (q >= 1.0 <==> atual >= alvo) by {
        if alvo > 0.0 {
          assert q * alvo == atual;
        }
      }
      if q <= 1.0 then q else 1.0
  }

  /** What one transaction adds to the balance: exactly "Entrada" is
      income, every other kind is an expense. */
  function Sinal(t: Transacao): int
  {
    if t.tipo == ENTRADA then t.valor else -t.valor
  }

  /** The balance as `calcularSaldoAtual` accumulates it, first transaction
      first. */
  function Saldo(ts: seq<Transacao>): int
  {
    if |ts| == 0 then 0 else Saldo(ts[..|ts| - 1]) + Sinal(ts[|ts| - 1])
  }

  /** The balance as the stream in `atualizarUI` sums it: the signed
      amounts, added up. It adds the income and subtracts everything else. */
  function SaldoStream(ts: seq<Transacao>): (r: int)
    ensures r == SomaEntradas(ts) - SomaSaidas(ts)
  {
    if |ts| == 0 then 0 else Sinal(ts[0]) + SaldoStream(ts[1..])
  }

  /** Sum of the amounts whose kind is exactly "Entrada". */
  function SomaEntradas(ts: seq<Transacao>): int
  {
    if |ts| == 0 then 0 else (if ts[0].tipo == ENTRADA then ts[0].valor else 0) + SomaEntradas(ts[1..])
  }

  /** Sum of the amounts of every other kind. */
  function SomaSaidas(ts: seq<Transacao>): int
  {
    if |ts| == 0 then 0 else (if ts[0].tipo == ENTRADA then 0 else ts[0].valor) + SomaSaidas(ts[1..])
  }

  lemma {:induction false} SaldoAcrescentado(ts: seq<Transacao>, t: Transacao)
    ensures Saldo(ts + [t]) == Saldo(ts) + Sinal(t)
  {
    assert (ts + [t])[..|ts|] == ts;
  }

  /** The loop and the stream compute the same balance, so the balance is
      the income total minus the total of everything else. */
  lemma {:induction false} SaldoIgualStream(ts: seq<Transacao>)
    ensures Saldo(ts) == SaldoStream(ts)
    ensures Saldo(ts) == SomaEntradas(ts) - SomaSaidas(ts)
  {
    if |ts| > 0 {
      var init := ts[..|ts| - 1];
      SaldoIgualStream(init);
      StreamLast(ts);
    }
  }

  /** The stream sum peeled from the end instead of the front. */
  lemma {:induction false} StreamLast(ts: seq<Transacao>)
    requires |ts| > 0
    ensures SaldoStream(ts) == SaldoStream(ts[..|ts| - 1]) + Sinal(ts[|ts| - 1])
  {
    if |ts| > 1 {
      StreamLast(ts[1..]);
      assert ts[1..][..|ts| - 2] == ts[..|ts| - 1][1..];
    }
  }

  /** A goal can take `x` more without passing its target. */
  predicate Cabe(m: Meta, x: int)
  {
    !PossuiAlvo(m) || m.valorAtual + x <= m.valorAlvo.value
  }

  /** The outcome of the save button of the new-transaction window. */
  datatype Resultado =
    | DadosInvalidos     // the "Dados inválidos" alert: bad amount, or no goal selected
    | MetaAlcancada      // the "Meta alcançada" notice
    | SaldoInsuficiente  // the "Saldo insuficiente" warning
    | Aplicado(valor: int) // a goal was funded with `valor`
    | Registrada         // an ordinary transaction was recorded

  /** The decisions of the goal-funding branch, given the goal, the
      requested amount and the current balance: a reached goal is refused;
      the amount is capped by the balance, refused if that leaves nothing;
      then capped by what the goal is missing. The amount granted is
      positive, within the request, the balance and the goal's target. The
      second "Meta alcançada" refusal never happens: a goal that is not
      reached is always missing something. */
  function Alocar(m: Meta, valor: int, saldo: int): (r: Resultado)
    ensures r.MetaAlcancada? || r.SaldoInsuficiente? || r.Aplicado?
    ensures r.MetaAlcancada? <==> EstaAlcancada(m)
    ensures r.SaldoInsuficiente? <==> !EstaAlcancada(m) && (valor <= 0 || saldo <= 0)
    ensures r.Aplicado? ==> 0 < r.valor <= valor && r.valor <= saldo && Cabe(m, r.valor)
  {
    if EstaAlcancada(m) then MetaAlcancada
    else
      var limiteSaldo := Min(valor, saldo);
      if limiteSaldo <= 0 then SaldoInsuficiente
      else
        var limiteMeta := match RestanteParaAlvo(m)
          case Ilimitado => limiteSaldo
          case Limite(restante) => Min(limiteSaldo, restante);
        if limiteMeta <= 0 then MetaAlcancada else Aplicado(limiteMeta)
  }

  /** The amount granted is the largest one allowed: any positive amount
      within the request, the balance and the goal's target is at most it,
      and it is the request, the balance or what the goal is missing. */
  lemma AlocarMaximo(m: Meta, valor: int, saldo: int, x: int)
    requires Alocar(m, valor, saldo).Aplicado?
    requires 0 < x <= valor && x <= saldo && Cabe(m, x)
    ensures x <= Alocar(m, valor, saldo).valor
    ensures var a := Alocar(m, valor, saldo).valor;
      a == valor || a == saldo || RestanteParaAlvo(m) == Limite(a)
  {
  }

  /** The transaction that records a funding of `valor` into goal `nome`. */
  function TransacaoDeMeta(valor: int, nome: string): Transacao
  {
    Transacao(SAIDA, valor, ADICIONAR_A_META, nome)
  }

  /** A funding that is granted lowers the balance by exactly the amount
      granted and never below zero; the goal ends at or below its target,
      and it is reached exactly when the grant was all it was missing. */
  lemma FinanciamentoPreservaSaldo(ts: seq<Transacao>, m: Meta, valor: int)
    requires Alocar(m, valor, Saldo(ts)).Aplicado?
    ensures var a := Alocar(m, valor, Saldo(ts)).valor;
      Saldo(ts + [TransacaoDeMeta(a, m.nome)]) == Saldo(ts) - a >= 0
    ensures var a := Alocar(m, valor, Saldo(ts)).valor;
      PossuiAlvo(m) ==> m.valorAtual < m.valorAtual + a <= m.valorAlvo.value
    ensures var a := Alocar(m, valor, Saldo(ts)).valor;
      EstaAlcancada(m.(valorAtual := m.valorAtual + a)) <==> RestanteParaAlvo(m) == Limite(a)
  {
    var a := Alocar(m, valor, Saldo(ts)).valor;
    SaldoAcrescentado(ts, TransacaoDeMeta(a, m.nome));
  }

  /** The category choices offered for a kind. "Adicionar à Meta" is one of
      them only for "Entrada", the one kind that reaches the funding branch. */
  function Categorias(tipo: string): (r: seq<string>)
    ensures tipo != ENTRADA && tipo != SAIDA ==> r == []
    ensures tipo == ENTRADA || tipo == SAIDA ==> |r| >= 4 && r[|r| - 1] == "Outros"
    ensures ADICIONAR_A_META in r <==> tipo == ENTRADA
    ensures forall i, j :: 0 <= i < j < |r| ==> r[i] != r[j]
  {
    if tipo == ENTRADA then ["Salário", "Empréstimo", ADICIONAR_A_META, "Outros"]
    else if tipo == SAIDA then ["Aluguel", "Alimentação", "Internet", "Conta de água", "Conta de luz", "Compras", "Outros"]
    else []
  }

  /** The line `salvarTransacoes` prints for one transaction: its four
      fields joined by ';'. When no field holds ';', `split` cuts the line
      back into those fields, less the trailing empty ones. */
  function FormatarLinha(t: Transacao): (linha: string)
    ensures ';' !in t.tipo && ';' !in t.categoria && ';' !in t.meta ==>
      JavaText.Split(linha, ';') == JavaText.DropTrailingEmpty([t.tipo, Amounts.Format(t.valor), t.categoria, t.meta])
  {
    var campos := [t.tipo, Amounts.Format(t.valor), t.categoria, t.meta];
    if JavaText.NoSeparator(campos, ';') then JavaText.SplitJoin(campos, ';'); JavaText.Join(campos, ';')
    else JavaText.Join(campos, ';')
  }

  /** The record `carregarTransacoes` builds from one line; a goal name is
      read only when `split` left a fourth field. A missing field or an
      amount that does not parse is the exception that ends loading, so a
      line without ';' never loads; the fields read never hold ';'. */
  function ParseLinha(linha: string): (r: Option<Transacao>)
    ensures ';' !in linha ==> r.None?
    ensures r.Some? ==> ';' !in r.value.tipo && ';' !in r.value.categoria && ';' !in r.value.meta
  {
    var p := JavaText.Split(linha, ';');
    if |p| < 2 then None
    else
      match Amounts.Parse(p[1])
      case None => None
      case Some(valor) =>
        if |p| < 3 then None
        else Some(Transacao(p[0], valor, p[2], if |p| > 3 then p[3] else ""))
  }

  /** A transaction whose line reads back: no field holds ';', and the
      category and the goal name are not both empty. */
  predicate LinhaLegivel(t: Transacao)
  {
    ';' !in t.tipo && ';' !in t.categoria && ';' !in t.meta && (t.categoria != "" || t.meta != "")
  }

  /** A line written for a transaction whose fields hold no ';' parses back
      to it, unless both its category and goal name are empty: then `split`
      drops both and the line does not parse. */
  lemma LinhaIdaEVolta(t: Transacao)
    requires ';' !in t.tipo && ';' !in t.categoria && ';' !in t.meta
    ensures ParseLinha(FormatarLinha(t)) == if t.categoria != "" || t.meta != "" then Some(t) else None
  {
    var valor := Amounts.Format(t.valor);
    var campos := [t.tipo, valor, t.categoria, t.meta];
    Amounts.ParseFormat(t.valor);
    if t.meta == "" {
      assert campos[..3] == [t.tipo, valor, t.categoria];
      assert JavaText.DropTrailingEmpty(campos) == JavaText.DropTrailingEmpty(campos[..3]);
      if t.categoria == "" {
        assert campos[..3][..2] == [t.tipo, valor];
      }
    }
  }

  /** Saving and then loading gives the transactions back when each one's
      line is readable and no field holds a line break. */
  lemma CarregarTransacoesSalvas(ts: seq<Transacao>)
    requires forall i :: 0 <= i < |ts| ==>
      LinhaLegivel(ts[i]) && LineFiles.OneLine(ts[i].tipo) && LineFiles.OneLine(ts[i].categoria) && LineFiles.OneLine(ts[i].meta)
    ensures LineFiles.LoadPrefix(LineFiles.Lines(ts, FormatarLinha), ParseLinha) == ts
  {
    forall i | 0 <= i < |ts|
      ensures ParseLinha(FormatarLinha(ts[i])) == Some(ts[i])
    {
      LinhaIdaEVolta(ts[i]);
    }
    LineFiles.LoadLines(ts, FormatarLinha, ParseLinha);
  }

  /** The target as `salvarMetas` prints it: "null" when there is none. */
  function FormatarAlvo(alvo: Option<int>): string
  {
    match alvo
    case None => "null"
    case Some(a) => Amounts.Format(a)
  }

  /** The line `salvarMetas` prints for one goal: name, target and value
      joined by ';'. When the name holds no ';', `split` cuts the line back
      into exactly those three fields. */
  function FormatarMetaLinha(m: Meta): (linha: string)
    ensures ';' !in m.nome ==>
      JavaText.Split(linha, ';') == [m.nome, FormatarAlvo(m.valorAlvo), Amounts.Format(m.valorAtual)]
  {
    var campos := [m.nome, FormatarAlvo(m.valorAlvo), Amounts.Format(m.valorAtual)];
    if JavaText.NoSeparator(campos, ';') then JavaText.SplitJoin(campos, ';'); JavaText.Join(campos, ';')
    else JavaText.Join(campos, ';')
  }

  /** The goal `carregarMetas` builds from one line: the token "null" is a
      missing target, anything else must parse as an amount, and so must the
      third field. A line without ';' never loads, and the name read never
      holds ';'. */
  function ParseMetaLinha(linha: string): (r: Option<Meta>)
    ensures ';' !in linha ==> r.None?
    ensures r.Some? ==> ';' !in r.value.nome
  {
    var p := JavaText.Split(linha, ';');
    if |p| < 2 then None
    else
      var alvo := if p[1] == "null" then Some(None) else
        match Amounts.Parse(p[1])
        case None => None
        case Some(a) => Some(Some(a));
      if alvo.None? || |p| < 3 then None
      else
        match Amounts.Parse(p[2])
        case None => None
        case Some(atual) => Some(Meta(p[0], alvo.value, atual))
  }

  /** A goal line parses back to the goal when the name holds no ';',
      with or without a target. */
  lemma MetaLinhaIdaEVolta(m: Meta)
    requires ';' !in m.nome
    ensures ParseMetaLinha(FormatarMetaLinha(m)) == Some(m)
  {
    var alvo := FormatarAlvo(m.valorAlvo);
    var atual := Amounts.Format(m.valorAtual);
    Amounts.ParseFormat(m.valorAtual);
    if m.valorAlvo.Some? {
      Amounts.ParseFormat(m.valorAlvo.value);
      assert alvo != "null" by {
        assert alvo[0] != 'n';
      }
    }
  }

  /** Saving and then loading gives the goals back when no name holds ';'
      or a line break. */
  lemma CarregarMetasSalvas(ms: seq<Meta>)
    requires forall i :: 0 <= i < |ms| ==> ';' !in ms[i].nome && LineFiles.OneLine(ms[i].nome)
    ensures LineFiles.LoadPrefix(LineFiles.Lines(ms, FormatarMetaLinha), ParseMetaLinha) == ms
  {
    forall i | 0 <= i < |ms|
      ensures ParseMetaLinha(FormatarMetaLinha(ms[i])) == Some(ms[i])
    {
      MetaLinhaIdaEVolta(ms[i]);
    }
    LineFiles.LoadLines(ms, FormatarMetaLinha, ParseMetaLinha);
  }

  /** Whether a submission asks to fund a goal. */
  predicate EhFinanciamento(tipo: string, categoria: string)
  {
    tipo == ENTRADA && categoria == ADICIONAR_A_META
  }

  /** The name of the selected goal, or "" when none is selected. */
  function NomeSelecionado(metas: seq<Meta>, selecionada: Option<nat>): string
    requires selecionada.Some? ==> selecionada.value < |metas|
  {
    if selecionada.Some? then metas[selecionada.value].nome else ""
  }

  /** The application's state: the transactions and the goals. */
  class Ledger {
    var transacoes: seq<Transacao>
    var metas: seq<Meta>

    constructor ()
      ensures transacoes == [] && metas == []
    {
      transacoes := [];
      metas := [];
    }

    /** `calcularSaldoAtual`: the balance of the transactions, the list
        only read. */
    method CalcularSaldoAtual() returns (saldo: int)
      ensures saldo == Saldo(transacoes)
    {
      saldo := 0;
      for i := 0 to |transacoes|
        invariant saldo == Saldo(transacoes[..i])
      {
        assert transacoes[..i + 1][..i] == transacoes[..i];
        if transacoes[i].tipo == ENTRADA {
          saldo := saldo + transacoes[i].valor;
        } else {
          saldo := saldo - transacoes[i].valor;
        }
      }
      assert transacoes[..|transacoes|] == transacoes;
    }

    /** The save button of the new-transaction window, with the kind and
        category chosen, the amount as typed and the selected goal's
        position. An amount that does not parse, or a funding request
        without a goal, changes nothing. A funding request is decided by
        `Alocar` on the balance; a granted amount is added to the goal and
        recorded as one "Saída" transaction at the end; a refusal changes
        nothing. Any other submission is recorded as it is, amount
        unchecked, tagged with the selected goal's name. */
    method SalvarTransacao(tipo: string, categoria: string, valorTexto: string, selecionada: Option<nat>)
      returns (r: Resultado)
      requires selecionada.Some? ==> selecionada.value < |metas|
      modifies this
      ensures Amounts.Parse(valorTexto).None? ==> r == DadosInvalidos
      ensures EhFinanciamento(tipo, categoria) && selecionada.None? ==> r == DadosInvalidos
      ensures r.Registrada? <==> Amounts.Parse(valorTexto).Some? && !EhFinanciamento(tipo, categoria)
      ensures r.Registrada? ==> metas == old(metas)
      ensures r.Registrada? ==> transacoes == old(transacoes) + [
        Transacao(tipo, Amounts.Parse(valorTexto).value, categoria, NomeSelecionado(old(metas), selecionada))]
      ensures Amounts.Parse(valorTexto).Some? && EhFinanciamento(tipo, categoria) && selecionada.Some? ==>
        r == Alocar(old(metas)[selecionada.value], Amounts.Parse(valorTexto).value, Saldo(old(transacoes)))
      ensures r.Aplicado? ==> (
        && selecionada.Some?
        && var m := old(metas)[selecionada.value];
        && metas == old(metas)[selecionada.value := m.(valorAtual := m.valorAtual + r.valor)]
        && transacoes == old(transacoes) + [TransacaoDeMeta(r.valor, m.nome)])
      ensures r.Aplicado? ==> Saldo(transacoes) == Saldo(old(transacoes)) - r.valor >= 0
      ensures !r.Aplicado? && !r.Registrada? ==> transacoes == old(transacoes) && metas == old(metas)
    {
      var valor := Amounts.Parse(valorTexto);
      if valor.None? {
        return DadosInvalidos;
      }
      var nomeMeta := NomeSelecionado(metas, selecionada);
      if tipo == ENTRADA && categoria == ADICIONAR_A_META {
        if selecionada.None? {
          return DadosInvalidos;
        }
        r := FinanciarMeta(selecionada.value, valor.value);
      } else {
        transacoes := transacoes + [Transacao(tipo, valor.value, categoria, nomeMeta)];
        r := Registrada;
      }
    }

    /** The goal-funding branch of the save button, for the goal at
        position `i` and the amount requested: `Alocar` decides on the
        current balance; a granted amount is added to the goal and recorded
        as one "Saída" transaction at the end; a refusal changes nothing. */
    method FinanciarMeta(i: nat, valor: int) returns (r: Resultado)
      requires i < |metas|
      modifies this
      ensures r == Alocar(old(metas)[i], valor, Saldo(old(transacoes)))
      ensures r.Aplicado? ==> metas == old(metas)[i := old(metas)[i].(valorAtual := old(metas)[i].valorAtual + r.valor)]
      ensures r.Aplicado? ==> transacoes == old(transacoes) + [TransacaoDeMeta(r.valor, old(metas)[i].nome)]
      ensures r.Aplicado? ==> Saldo(transacoes) == Saldo(old(transacoes)) - r.valor >= 0
      ensures !r.Aplicado? ==> transacoes == old(transacoes) && metas == old(metas)
    {
      var meta := metas[i];
      if EstaAlcancada(meta) {
        return MetaAlcancada;
      }
      var saldoAtual := CalcularSaldoAtual();
      var limiteSaldo := Min(valor, saldoAtual);
      if limiteSaldo <= 0 {
        return SaldoInsuficiente;
      }
      var limiteMeta := match RestanteParaAlvo(meta)
        case Ilimitado => limiteSaldo
        case Limite(restante) => Min(limiteSaldo, restante);
      if limiteMeta <= 0 {
        return MetaAlcancada;
      }
      metas := metas[i := meta.(valorAtual := meta.valorAtual + limiteMeta)];
      SaldoAcrescentado(transacoes, TransacaoDeMeta(limiteMeta, meta.nome));
      transacoes := transacoes + [TransacaoDeMeta(limiteMeta, meta.nome)];
      r := Aplicado(limiteMeta);
    }

    /** The save button of the new-goal window: an empty target field is a
        goal without a target; otherwise the target must parse, or nothing
        changes. The new goal starts at 0 and goes at the end. */
    method NovaMeta(nome: string, alvoTexto: string) returns (ok: bool)
      modifies this
      ensures ok <==> alvoTexto == "" || Amounts.Parse(alvoTexto).Some?
      ensures ok ==> metas == old(metas) + [
        Meta(nome, if alvoTexto == "" then None else Some(Amounts.Parse(alvoTexto).value), 0)]
      ensures !ok ==> metas == old(metas)
      ensures transacoes == old(transacoes)
    {
      var alvo: Option<int> := None;
      if alvoTexto != "" {
        var a := Amounts.Parse(alvoTexto);
        if a.None? {
          return false;
        }
        alvo := Some(a.value);
      }
      metas := metas + [Meta(nome, alvo, 0)];
      ok := true;
    }

    /** `carregarTransacoes`: `None` is a missing file, which loads nothing;
        otherwise lines are parsed and appended until the first one that
        fails, and what was appended before it stays. */
    method CarregarTransacoes(arquivo: Option<seq<string>>)
      modifies this`transacoes
      ensures arquivo.None? ==> transacoes == old(transacoes)
      ensures arquivo.Some? ==> transacoes == old(transacoes) + LineFiles.LoadPrefix(arquivo.value, ParseLinha)
      ensures metas == old(metas)
    {
      if arquivo.None? {
        return;
      }
      AnexarTransacoes(arquivo.value, ParseLinha);
    }

    /** The load loop, for any line parser: each line is parsed and its
        record appended at once; the first line that fails ends the loop. */
    method AnexarTransacoes(linhas: seq<string>, parse: string -> Option<Transacao>)
      modifies this`transacoes
      ensures transacoes == old(transacoes) + LineFiles.LoadPrefix(linhas, parse)
    {
      var i := 0;
      while i < |linhas|
        invariant 0 <= i <= |linhas|
        invariant old(transacoes) + LineFiles.LoadPrefix(linhas, parse)
               == transacoes + LineFiles.LoadPrefix(linhas[i..], parse)
      {
        var t := parse(linhas[i]);
        LineFiles.LoadPrefixStep(linhas, i, parse);
        if t.None? {
          break;
        }
        transacoes := transacoes + [t.value];
        i := i + 1;
      }
    }

    /** `carregarMetas`: the same loop over the goals file. */
    method CarregarMetas(arquivo: Option<seq<string>>)
      modifies this`metas
      ensures arquivo.None? ==> metas == old(metas)
      ensures arquivo.Some? ==> metas == old(metas) + LineFiles.LoadPrefix(arquivo.value, ParseMetaLinha)
      ensures transacoes == old(transacoes)
    {
      if arquivo.None? {
        return;
      }
      AnexarMetas(arquivo.value, ParseMetaLinha);
    }

    /** The load loop, for any line parser: each line is parsed and its
        record appended at once; the first line that fails ends the loop. */
    method AnexarMetas(linhas: seq<string>, parse: string -> Option<Meta>)
      modifies this`metas
      ensures metas == old(metas) + LineFiles.LoadPrefix(linhas, parse)
    {
      var i := 0;
      while i < |linhas|
        invariant 0 <= i <= |linhas|
        invariant old(metas) + LineFiles.LoadPrefix(linhas, parse)
               == metas + LineFiles.LoadPrefix(linhas[i..], parse)
      {
        var m := parse(linhas[i]);
        LineFiles.LoadPrefixStep(linhas, i, parse);
        if m.None? {
          break;
        }
        metas := metas + [m.value];
        i := i + 1;
      }
    }

    /** `salvarTransacoes`: the lines written, one per transaction, in
        list order. */
    method SalvarTransacoes() returns (linhas: seq<string>)
      ensures |linhas| == |transacoes|
      ensures forall i :: 0 <= i < |transacoes| ==> linhas[i] == FormatarLinha(transacoes[i])
    {
      linhas := [];
      for i := 0 to |transacoes|
        invariant |linhas| == i
        invariant forall j :: 0 <= j < i ==> linhas[j] == FormatarLinha(transacoes[j])
      {
        linhas := linhas + [FormatarLinha(transacoes[i])];
      }
    }

    /** `salvarMetas`: the lines written, one per goal, in list order. */
    method SalvarMetas() returns (linhas: seq<string>)
      ensures |linhas| == |metas|
      ensures forall i :: 0 <= i < |metas| ==> linhas[i] == FormatarMetaLinha(metas[i])
    {
      linhas := [];
      for i := 0 to |metas|
        invariant |linhas| == i
        invariant forall j :: 0 <= j < i ==> linhas[j] == FormatarMetaLinha(metas[j])
      {
        linhas := linhas + [FormatarMetaLinha(metas[i])];
      }
    }
  }
}
