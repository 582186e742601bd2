/** Main.java: the first version of the app. It keeps an in-memory list of
    `models.Transacao`, appends to it, removes from it by position, and
    stores it as `tipo;valor;categoria` lines. */
module Legacy {
  import opened Wrappers
  import JavaText
  import Amounts
  import LineFiles
  import opened Models

  /** The line `salvarTransacoesArquivo` prints for one transaction: its
      three fields joined by ';'. When no field holds ';', `split` cuts the
      line back into those fields, less a trailing empty category. */
  function FormatarLinha(t: Transacao): (linha: string)
    ensures ';' !in t.tipo && ';' !in t.categoria ==>
      JavaText.Split(linha, ';') == JavaText.DropTrailingEmpty([t.tipo, Amounts.Format(t.valor), t.categoria])
  {
    var campos := [t.tipo, Amounts.Format(t.valor), t.categoria];
    if JavaText.NoSeparator(campos, ';') then JavaText.SplitJoin(campos, ';'); JavaText.Join(campos, ';')
    else JavaText.Join(campos, ';')
  }

  /** The record `carregarTransacoesArquivo` builds from one line: fields 0
      to 2 of `split(";")`, extra fields ignored. A missing field or an
      amount that does not parse is the exception that ends loading, so a
      line without ';' never loads; the fields read never hold ';'. */
  function ParseLinha(linha: string): (r: Option<Transacao>)
    ensures ';' !in linha ==> r.None?
    ensures r.Some? ==> ';' !in r.value.tipo && ';' !in r.value.categoria
  {
    var partes := JavaText.Split(linha, ';');
    if |partes| < 2 then None
    else
      match Amounts.Parse(partes[1])
      case None => None
      case Some(valor) => if |partes| < 3 then None else Some(Transacao(partes[0], valor, partes[2]))
  }

  /** A transaction whose line reads back: no field holds ';', and the
      category is not empty (split would drop it as a trailing field). */
  predicate LinhaLegivel(t: Transacao)
  {
    ';' !in t.tipo && ';' !in t.categoria && t.categoria != ""
  }

  /** A line written for a readable transaction parses back to it, and a
      line written for one with an empty category does not parse. */
  lemma LinhaIdaEVolta(t: Transacao)
    requires ';' !in t.tipo && ';' !in t.categoria
    ensures ParseLinha(FormatarLinha(t)) == if t.categoria != "" then Some(t) else None
  {
    var valor := Amounts.Format(t.valor);
    var campos := [t.tipo, valor, t.categoria];
    Amounts.ParseFormat(t.valor);
    if t.categoria == "" {
      assert JavaText.DropTrailingEmpty(campos) == JavaText.DropTrailingEmpty([t.tipo, valor]);
    }
  }

  /** Saving and then loading gives the list back when every transaction is
      readable and no field holds a line break. */
  lemma CarregarSalvo(ts: seq<Transacao>)
    requires forall i :: 0 <= i < |ts| ==>
      LinhaLegivel(ts[i]) && LineFiles.OneLine(ts[i].tipo) && LineFiles.OneLine(ts[i].categoria)
    ensures LineFiles.LoadPrefix(LineFiles.Lines(ts, FormatarLinha), ParseLinha) == ts
  {
    forall i | 0 <= i < |ts|
      ensures ParseLinha(FormatarLinha(ts[i])) == Some(ts[i])
    {
      LinhaIdaEVolta(ts[i]);
    }
    LineFiles.LoadLines(ts, FormatarLinha, ParseLinha);
  }

  /** The category choices offered for a kind (the listener on the kind box). */
  function Categorias(tipo: string): (r: seq<string>)
    ensures tipo != "Entrada" && tipo != "Saída" ==> r == []
    ensures tipo == "Entrada" || tipo == "Saída" ==> |r| >= 4 && r[|r| - 1] == "Outros"
    ensures forall i, j :: 0 <= i < j < |r| ==> r[i] != r[j]
  {
    if tipo == "Entrada" then ["Salário", "Empréstimo", "Vale", "Outros"]
    else if tipo == "Saída" then ["Aluguel", "Conta de água", "Conta de luz", "Alimentação", "Transporte", "Outros"]
    else []
  }

  /** The outcome of the delete button. */
  datatype Exclusao =
    | Excluida      // the selected transaction was removed
    | Aviso         // nothing was selected: the warning dialog
    | ForaDoLimite  // `ArrayList.remove` threw IndexOutOfBoundsException

  /** The application's state: the list of transactions. */
  class Ledger {
    var transacoes: seq<Transacao>

    constructor ()
      ensures transacoes == []
    {
      transacoes := [];
    }

    /** `carregarTransacoesArquivo`: `None` is a missing file, which loads
        nothing; otherwise lines are parsed and appended until the first one
        that fails, and what was appended before it stays. */
    method CarregarArquivo(arquivo: Option<seq<string>>)
      modifies this
      ensures arquivo.None? ==> transacoes == old(transacoes)
      ensures arquivo.Some? ==> transacoes == old(transacoes) + LineFiles.LoadPrefix(arquivo.value, ParseLinha)
    {
      if arquivo.None? {
        return;
      }
      AnexarLinhas(arquivo.value, ParseLinha);
    }

    /** The load loop, for any line parser: each line is parsed and its
        record appended at once; the first line that fails ends the loop. */
    method AnexarLinhas(linhas: seq<string>, parse: string -> Option<Transacao>)
      modifies this
      ensures transacoes == old(transacoes) + LineFiles.LoadPrefix(linhas, parse)
    {
      var i := 0;
      while i < |linhas|
        invariant 0 <= i <= |linhas|
        invariant old(transacoes) + LineFiles.LoadPrefix(linhas, parse)
               == transacoes + LineFiles.LoadPrefix(linhas[i..], parse)
      {
        var t := parse(linhas[i]);
        LineFiles.LoadPrefixStep(linhas, i, parse);
        if t.None? {
          break;
        }
        transacoes := transacoes + [t.value];
        i := i + 1;
      }
    }

    /** The save button: the amount text must parse, or nothing changes;
        otherwise the new transaction goes at the end, unchecked. */
    method Adicionar(tipo: string, valorTexto: string, categoria: string) returns (ok: bool)
      modifies this
      ensures ok <==> Amounts.Parse(valorTexto).Some?
      ensures ok ==> transacoes == old(transacoes) + [Transacao(tipo, Amounts.Parse(valorTexto).value, categoria)]
      ensures !ok ==> transacoes == old(transacoes)
    {
      var valor := Amounts.Parse(valorTexto);
      if valor.None? {
        return false;
      }
      transacoes := transacoes + [Transacao(tipo, valor.value, categoria)];
      ok := true;
    }

    /** `excluirTransacaoSelecionada`, given the list view's selected row
        (-1 when nothing is selected, which only raises a warning). A row
        past the end makes `ArrayList.remove` throw before anything
        changes. */
    method ExcluirSelecionada(index: int) returns (r: Exclusao)
      modifies this
      ensures r == Aviso <==> index < 0
      ensures r == ForaDoLimite <==> index >= |old(transacoes)|
      ensures r != Excluida ==> transacoes == old(transacoes)
      ensures r == Excluida ==> |transacoes| == |old(transacoes)| - 1
      ensures r == Excluida ==> transacoes == old(transacoes)[..index] + old(transacoes)[index + 1..]
    {
      if index >= 0 {
        if index >= |transacoes| {
          return ForaDoLimite;
        }
        transacoes := transacoes[..index] + transacoes[index + 1..];
        r := Excluida;
      } else {
        r := Aviso;
      }
    }

    /** `salvarTransacoesArquivo`: the lines written, one per transaction,
        in list order. */
    method SalvarArquivo() returns (linhas: seq<string>)
      ensures |linhas| == |transacoes|
      ensures forall i :: 0 <= i < |transacoes| ==> linhas[i] == FormatarLinha(transacoes[i])
    {
      linhas := [];
      for i := 0 to |transacoes|
        invariant |linhas| == i
        invariant forall j :: 0 <= j < i ==> linhas[j] == FormatarLinha(transacoes[j])
      {
        linhas := linhas + [FormatarLinha(transacoes[i])];
      }
    }
  }
}
