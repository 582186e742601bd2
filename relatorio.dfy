/** utils/RelatorioHelper.java: the balance of a list of
    `models.Transacao`, where a kind equal to "Entrada" ignoring case is
    income and any other kind is an expense. */
module Relatorio {
  import JavaText
  import opened Models

  predicate EhEntrada(t: Transacao)
  {
    JavaText.EqualsIgnoreCase(t.tipo, "Entrada")
  }

  /** What one transaction adds to the balance. */
  function Efeito(t: Transacao): int
  {
    if EhEntrada(t) then t.valor else -t.valor
  }

  /** The balance as the loop accumulates it, first transaction first. */
  function Saldo(ts: seq<Transacao>): int
  {
    if |ts| == 0 then 0 else Saldo(ts[..|ts| - 1]) + Efeito(ts[|ts| - 1])
  }

  /** Sum of the amounts of the income transactions. */
  function SomaEntradas(ts: seq<Transacao>): int
  {
    if |ts| == 0 then 0 else (if EhEntrada(ts[0]) then ts[0].valor else 0) + SomaEntradas(ts[1..])
  }

  /** Sum of the amounts of all other transactions. */
  function SomaSaidas(ts: seq<Transacao>): int
  {
    if |ts| == 0 then 0 else (if EhEntrada(ts[0]) then 0 else ts[0].valor) + SomaSaidas(ts[1..])
  }

  /** `calcularSaldo`: starts from 0 and adds or subtracts each amount in
      turn; the list is only read. */
  method CalcularSaldo(ts: seq<Transacao>) returns (saldo: int)
    ensures saldo == Saldo(ts)
  {
    saldo := 0;
    for i := 0 to |ts|
      invariant saldo == Saldo(ts[..i])
    {
      assert ts[..i + 1][..i] == ts[..i];
      if JavaText.EqualsIgnoreCase(ts[i].tipo, "Entrada") {
        saldo := saldo + ts[i].valor;
      } else {
        saldo := saldo - ts[i].valor;
      }
    }
    assert ts[..|ts|] == ts;
  }

  /** The balance of two lists one after the other is the sum of their
      balances. */
  lemma {:induction false} SaldoConcat(a: seq<Transacao>, b: seq<Transacao>)
    ensures Saldo(a + b) == Saldo(a) + Saldo(b)
  {
    if |b| > 0 {
      SaldoConcat(a, b[..|b| - 1]);
      assert (a + b)[..|a + b| - 1] == a + b[..|b| - 1];
    } else {
      assert a + b == a;
    }
  }

  /** The balance is the income total minus the total of everything else. */
  lemma {:induction false} SaldoEntradasMenosSaidas(ts: seq<Transacao>)
    ensures Saldo(ts) == SomaEntradas(ts) - SomaSaidas(ts)
  {
    if |ts| > 0 {
      SaldoEntradasMenosSaidas(ts[1..]);
      SaldoConcat([ts[0]], ts[1..]);
      assert [ts[0]] + ts[1..] == ts;
      assert Saldo([ts[0]]) == Efeito(ts[0]) by {
        assert [ts[0]][..0] == [];
      }
    }
  }

  /** Appending an income of `v` raises the balance by `v`; appending any
      other kind lowers it by `v`. */
  lemma SaldoAposAcrescentar(ts: seq<Transacao>, t: Transacao)
    ensures EhEntrada(t) ==> Saldo(ts + [t]) == Saldo(ts) + t.valor
    ensures !EhEntrada(t) ==> Saldo(ts + [t]) == Saldo(ts) - t.valor
  {
    assert (ts + [t])[..|ts|] == ts;
  }

  /** Reordering the list does not change the balance. */
  lemma {:induction false} SaldoPermutacao(a: seq<Transacao>, b: seq<Transacao>)
    requires multiset(a) == multiset(b)
    ensures Saldo(a) == Saldo(b)
    decreases |a|
  {
    if |a| == 0 {
      assert |b| == |multiset(b)| == 0;
    } else {
      var x := a[0];
      assert x in multiset(b);
      var i :| 0 <= i < |b| && b[i] == x;
      var rest := b[..i] + b[i + 1..];
      assert b == b[..i] + [x] + b[i + 1..];
      assert a == [x] + a[1..];
      assert multiset(b) == multiset(b[..i]) + multiset([x]) + multiset(b[i + 1..]);
      assert multiset(rest) == multiset(b[..i]) + multiset(b[i + 1..]);
      assert multiset(a) == multiset([x]) + multiset(a[1..]);
      assert multiset(a[1..]) == multiset(a) - multiset([x]);
      assert multiset(rest) == multiset(b) - multiset([x]);
      SaldoPermutacao(a[1..], rest);
      SaldoConcat([x], a[1..]);
      SaldoConcat(b[..i] + [x], b[i + 1..]);
      SaldoConcat(b[..i], [x]);
      SaldoConcat(b[..i], b[i + 1..]);
      assert Saldo([x]) == Efeito(x) by {
        assert [x][..0] == [];
      }
    }
  }

  /** The case of the kind does not matter here: "entrada" and "ENTRADA"
      count as income. */
  lemma EntradaEmQualquerCaixa(v: int, categoria: string)
    ensures Saldo([Transacao("entrada", v, categoria)]) == v
    ensures Saldo([Transacao("ENTRADA", v, categoria)]) == v
  {
    assert [Transacao("entrada", v, categoria)][..0] == [];
    assert [Transacao("ENTRADA", v, categoria)][..0] == [];
  }
}
