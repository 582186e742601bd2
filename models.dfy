/** models/Transacao.java: the three-field transaction of the first version
    of the app. The record's getters (getTipo, getValor, getCategoria) are the
    datatype's destructors; being a value, it cannot change once built, and
    its constructor checks nothing (any kind, any amount). */
module Models {
  import JavaText
  import Amounts

  datatype Transacao = Transacao(tipo: string, valor: int, categoria: string)

  /** `toString`: the kind upper-cased, " - R$ ", the amount as
      `Double.toString` prints it, and the category in parentheses. */
  function Descrever(t: Transacao): (s: string)
    ensures |s| >= |t.tipo| + 6 && s[..|t.tipo| + 6] == JavaText.ToUpperCase(t.tipo) + " - R$ "
    ensures |s| >= |t.categoria| + 3 && s[|s| - |t.categoria| - 3..] == " (" + t.categoria + ")"
  {
    JavaText.ToUpperCase(t.tipo) + " - R$ " + Amounts.Format(t.valor) + " (" + t.categoria + ")"
  }

  /** The description does not see the case of the kind: two transactions
      whose kinds are equal ignoring case are described alike. */
  lemma DescreverIgnoraCaixa(a: Transacao, b: Transacao)
    requires JavaText.EqualsIgnoreCase(a.tipo, b.tipo)
    requires a.valor == b.valor && a.categoria == b.categoria
    ensures Descrever(a) == Descrever(b)
  {
    JavaText.UpperCaseOfEqualIgnoringCase(a.tipo, b.tipo);
  }
}
