/** How the two versions of the app relate: app/Main.java hands its own
    four-field transactions to RelatorioHelper, written for the three-field
    `models.Transacao`, and both versions read the same transactions file. */
module Compat {
  import opened Wrappers
  import JavaText
  import Amounts
  import Models
  import Relatorio
  import Legacy
  import App

  /** The three-field transaction an app transaction corresponds to. */
  function ParaModelo(t: App.Transacao): Models.Transacao
  {
    Models.Transacao(t.tipo, t.valor, t.categoria)
  }

  function ParaModelos(ts: seq<App.Transacao>): (r: seq<Models.Transacao>)
    ensures |r| == |ts|
    ensures forall i :: 0 <= i < |ts| ==> r[i] == ParaModelo(ts[i])
  {
    seq(|ts|, i requires 0 <= i < |ts| => ParaModelo(ts[i]))
  }

  /** A kind on which the two balance rules agree: exactly "Entrada", or
      not "Entrada" even ignoring case. */
  predicate GrafiaExata(t: App.Transacao)
  {
    JavaText.EqualsIgnoreCase(t.tipo, App.ENTRADA) ==> t.tipo == App.ENTRADA
  }

  /** When every kind is spelled exactly, RelatorioHelper's balance and the
      app's own balance are the same. */
  lemma {:induction false} SaldosConcordam(ts: seq<App.Transacao>)
    requires forall i :: 0 <= i < |ts| ==> GrafiaExata(ts[i])
    ensures Relatorio.Saldo(ParaModelos(ts)) == App.Saldo(ts)
  {
    if |ts| > 0 {
      var init := ts[..|ts| - 1];
      SaldosConcordam(init);
      assert ParaModelos(ts)[..|ts| - 1] == ParaModelos(init);
      assert App.ENTRADA == "Entrada";
      assert JavaText.EqualsIgnoreCase("Entrada", "Entrada");
    }
  }

  /** A kind spelled "entrada" is income for RelatorioHelper and an expense
      for the app. */
  lemma SaldosDivergem(valor: int, categoria: string, meta: string)
    ensures var t := App.Transacao("entrada", valor, categoria, meta);
      && App.Saldo([t]) == -valor
      && Relatorio.Saldo(ParaModelos([t])) == valor
  {
    var t := App.Transacao("entrada", valor, categoria, meta);
    assert [t][..0] == [];
    assert ParaModelos([t])[..0] == [];
    assert "entrada" != App.ENTRADA by {
      assert "entrada"[0] != App.ENTRADA[0];
    }
  }

  /** Both loaders accept exactly the same lines, and read the same kind,
      amount and category from them; only the app reads a goal name. */
  lemma MesmasLinhasAceitas(linha: string)
    ensures App.ParseLinha(linha).Some? <==> Legacy.ParseLinha(linha).Some?
    ensures App.ParseLinha(linha).Some? ==> Legacy.ParseLinha(linha) == Some(ParaModelo(App.ParseLinha(linha).value))
  {
  }

  /** The old loader reads a line of the new format, dropping the goal name. */
  lemma LinhaNovaNoLegado(t: App.Transacao)
    requires App.LinhaLegivel(t)
    ensures Legacy.ParseLinha(App.FormatarLinha(t)) == Some(ParaModelo(t))
  {
    App.LinhaIdaEVolta(t);
    MesmasLinhasAceitas(App.FormatarLinha(t));
  }

  /** The new loader reads a line of the old three-field format, with an
      empty goal name. */
  lemma LinhaLegadaNoNovo(t: Models.Transacao)
    requires Legacy.LinhaLegivel(t)
    ensures App.ParseLinha(Legacy.FormatarLinha(t)) == Some(App.Transacao(t.tipo, t.valor, t.categoria, ""))
  {
    var linha := Legacy.FormatarLinha(t);
    assert |JavaText.Split(linha, ';')| == 3;
    Legacy.LinhaIdaEVolta(t);
    MesmasLinhasAceitas(linha);
  }
}
