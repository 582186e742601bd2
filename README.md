# Personal finance ledger — Dafny model

This project models the domain core of a small JavaFX personal-finance app,
in both of its generations:

- `app/Main.java` (module `App`): transactions `Transacao(tipo, valor,
  categoria, meta)`, savings goals `Meta(nome, valorAlvo, valorAtual)` with
  their derived values, the balance, the save handler of the new-transaction
  window, whose "Entrada" + "Adicionar à Meta" branch moves money from the
  balance into a goal, the new-goal handler, and the `;`-separated
  transactions and goals files.
- `Main.java` (module `Legacy`): the first version, with an in-memory list of
  three-field transactions, append, delete by selected row, the three-field
  file format and the category table.
- `models/Transacao.java` (module `Models`): the immutable three-field
  transaction. Its getters `getTipo`, `getValor` and `getCategoria` are the
  datatype's destructors. It is a value, so it never changes after it is
  built. Its constructor checks nothing: any kind and any amount, negative
  amounts included.
- `utils/RelatorioHelper.java` (module `Relatorio`): `calcularSaldo`, where
  a kind equal to "Entrada" ignoring case is income.

Supporting modules:

- `JavaText` models `String.split` on one character exactly. A string without
  the delimiter comes back whole. Otherwise trailing empty fields are dropped.
  It also models `toUpperCase` and `equalsIgnoreCase`.
- `Amounts` holds money as whole cents. `Format` is `Double.toString` and
  `Parse` is `Double.parseDouble`, and `Parse` reads back everything
  `Format` writes.
- `LineFiles` holds the load loop shared by every reader: parse line by
  line and stop at the first line that fails.
- `Compat` relates the two versions to each other.

Each stateful part of the source is a class whose methods change its fields
in place: `App.Ledger` (fields `transacoes`, `metas`) and `Legacy.Ledger`
(field `transacoes`). Loops in the source are `while`/`for` loops here, each
proved against a function that specifies it. Exceptions and alert dialogs
become results (`Option`, `App.Resultado`, `Legacy.Exclusao`).
`restanteParaAlvo`'s `Double.MAX_VALUE` is `App.Restante.Ilimitado`.

`estaAlcancada` (app/Main.java:55-57) is the predicate `App.EstaAlcancada`:
a target exists and `valorAtual >= valorAlvo`. `App.Alocar` states the
funding rule. A goal that is not reached always has something left to reach,
so the second "Meta alcançada" refusal (app/Main.java:276-279) cannot fire.
A funding request is refused as reached exactly when the goal is reached.

The loaders and handlers behave as follows:

- A malformed line ends loading, and the records read before it are kept
  (app/Main.java:365-375, Main.java:50-62).
- Amounts are not checked for sign.
- Only a negative selected row gets a warning (Main.java:121-128).

## Model

| member | source | states |
|---|---|---|
| `App.RestanteParaAlvo` | app/Main.java:59-62 | unbounded exactly when there is no target; never negative; zero exactly when the goal is reached; adding it to a goal not yet reached lands on the target |
| `App.Progresso` | app/Main.java:68-71 | 0 without a target or with target 0; never above 1; not negative for a positive target and non-negative value; for a positive target, 1 exactly when the goal is reached |
| `App.EstaAlcancada` | app/Main.java:55-57 | a goal without a target is never reached; a goal with a target is reached exactly when not even one more cent fits under it |
| `App.SaldoStream` | app/Main.java:352-354 | the stream sum equals the sum of exact-"Entrada" amounts minus the sum of all other amounts |
| `App.SaldoIgualStream` | app/Main.java:413-425 | the loop's balance equals the stream's balance and equals income minus all other amounts |
| `App.Alocar` | app/Main.java:252-279 | funding refused as reached exactly when the goal is reached; refused for balance exactly when request or balance is not positive; a grant is positive and within the request, the balance and the goal's target |
| `App.AlocarMaximo` | app/Main.java:265-279 | the grant is the largest admissible amount and equals the request, the balance or the goal's remaining amount |
| `App.FinanciamentoPreservaSaldo` | app/Main.java:263-285 | after a grant the balance is the old balance minus the grant and not negative; the goal rises strictly and stays within its target; it is reached exactly when the grant was its whole remainder |
| `App.Categorias` | app/Main.java:231-239 | no choices for kinds other than "Entrada"/"Saída"; "Outros" last; no duplicates; "Adicionar à Meta" offered exactly for "Entrada" |
| `App.LinhaIdaEVolta` | app/Main.java:366-371 | a transaction line with no ';' in its fields parses back to the same record, with an empty goal name restored; it fails to parse exactly when category and goal name are both empty |
| `App.FormatarLinha` | app/Main.java:381 | when no field holds ';', split cuts the printed line back into the four fields, trailing empty ones dropped |
| `App.ParseLinha` | app/Main.java:366-371 | a line without ';' never loads; the kind, category and goal name read never hold ';' |
| `App.CarregarTransacoesSalvas` | app/Main.java:378-385 | loading the saved transactions file gives the list back when every record's line is readable and no field holds a line break |
| `App.MetaLinhaIdaEVolta` | app/Main.java:404-406 | a goal line parses back to the same goal, with or without a target ("null") |
| `App.FormatarMetaLinha` | app/Main.java:390 | when the name holds no ';', split cuts the printed line back into exactly name, target or "null", and value |
| `App.ParseMetaLinha` | app/Main.java:403-406 | a line without ';' never loads; the name read never holds ';' |
| `App.CarregarMetasSalvas` | app/Main.java:387-394 | loading the saved goals file gives the goals back when no name holds ';' or a line break |
| `App.Ledger.constructor` | app/Main.java:85-86 | both lists start empty |
| `App.Ledger.CalcularSaldoAtual` | app/Main.java:413-425 | returns the balance of the transactions, which it only reads |
| `App.Ledger.SalvarTransacao` | app/Main.java:243-300 | unparsable amount or funding without a goal: "Dados inválidos", nothing changes; funding decided by `Alocar` on the current balance; a grant raises only the selected goal and appends exactly one "Saída"/"Adicionar à Meta" transaction with the goal's name, lowering the balance by the grant to a non-negative value; refusals change nothing; any other submission is appended unchanged with the selected goal's name or "" |
| `App.Ledger.FinanciarMeta` | app/Main.java:254-286 | result is `Alocar` of the goal, the request and the balance; a grant updates that goal's value and appends one transaction, nothing else; a refusal changes nothing |
| `App.Ledger.NovaMeta` | app/Main.java:147-160 | empty target text gives a goal without target; an unparsable target changes nothing; otherwise the new goal, at value 0, is appended; transactions unchanged |
| `App.Ledger.CarregarTransacoes` | app/Main.java:359-376 | a missing file loads nothing; otherwise the records of the lines up to the first malformed one are appended; goals unchanged |
| `App.Ledger.AnexarTransacoes` | app/Main.java:365-373 | the per-line loop appends exactly the records of the longest parsing prefix of lines |
| `App.Ledger.CarregarMetas` | app/Main.java:396-411 | a missing file loads nothing; otherwise the goals of the lines up to the first malformed one are appended; transactions unchanged |
| `App.Ledger.AnexarMetas` | app/Main.java:402-408 | the per-line loop appends exactly the goals of the longest parsing prefix of lines |
| `App.Ledger.SalvarTransacoes` | app/Main.java:378-385 | one line per transaction, in list order, each `tipo;valor;categoria;meta` |
| `App.Ledger.SalvarMetas` | app/Main.java:387-394 | one line per goal, in list order, each `nome;alvo or null;atual` |
| `Legacy.LinhaIdaEVolta` | Main.java:51-57 | a `tipo;valor;categoria` line with no ';' in its fields parses back to the record when the category is not empty, and does not parse when it is |
| `Legacy.FormatarLinha` | Main.java:146 | when no field holds ';', split cuts the printed line back into the three fields, an empty category dropped |
| `Legacy.ParseLinha` | Main.java:51-57 | a line without ';' never loads; the kind and category read never hold ';' |
| `Legacy.CarregarSalvo` | Main.java:142-152 | loading the saved file gives the list back when every category is non-empty and no field holds ';' or a line break |
| `Legacy.Categorias` | Main.java:81-89 | no choices for kinds other than "Entrada"/"Saída"; at least four choices ending in "Outros" otherwise; no duplicates |
| `Legacy.Ledger.constructor` | Main.java:15 | the list starts empty |
| `Legacy.Ledger.CarregarArquivo` | Main.java:41-63 | a missing file loads nothing; otherwise the records of the lines up to the first malformed one are appended and kept |
| `Legacy.Ledger.AnexarLinhas` | Main.java:50-58 | the per-line loop appends exactly the records of the longest parsing prefix of lines |
| `Legacy.Ledger.Adicionar` | Main.java:93-109 | an unparsable amount changes nothing; otherwise `(tipo, valor, categoria)` is appended at the end and earlier entries are unchanged |
| `Legacy.Ledger.ExcluirSelecionada` | Main.java:118-130 | a negative row only warns; a row past the end throws and changes nothing; otherwise exactly that element is removed, the rest keep their order, and the length drops by one |
| `Legacy.Ledger.SalvarArquivo` | Main.java:142-152 | one `tipo;valor;categoria` line per transaction, in list order |
| `Models.Descrever` | models/Transacao.java:24-27 | starts with the upper-cased kind and " - R$ ", ends with " (" + category + ")" |
| `Models.DescreverIgnoraCaixa` | models/Transacao.java:26 | transactions whose kinds are equal ignoring case have the same description, under the ASCII and Latin-1 case mapping |
| `Relatorio.CalcularSaldo` | utils/RelatorioHelper.java:7-17 | returns the balance fold of the list, which it only reads (0 for the empty list) |
| `Relatorio.SaldoEntradasMenosSaidas` | utils/RelatorioHelper.java:9-15 | the balance is the sum of amounts whose kind equals "Entrada" ignoring case minus the sum of all other amounts |
| `Relatorio.SaldoAposAcrescentar` | utils/RelatorioHelper.java:10-14 | appending an income raises the balance by its amount; appending any other kind lowers it by its amount |
| `Relatorio.SaldoConcat` | utils/RelatorioHelper.java:9-15 | the balance of two lists in sequence is the sum of their balances |
| `Relatorio.SaldoPermutacao` | utils/RelatorioHelper.java:9-15 | reordering the list does not change the balance |
| `Relatorio.EntradaEmQualquerCaixa` | utils/RelatorioHelper.java:10 | "entrada" and "ENTRADA" count as income |
| `Compat.SaldosConcordam` | app/Main.java:321 | with every kind spelled exactly (or not "Entrada" in any case), RelatorioHelper's balance equals the app's balance |
| `Compat.SaldosDivergem` | app/Main.java:417 | a kind "entrada" is an expense for the app but income for RelatorioHelper |
| `Compat.MesmasLinhasAceitas` | app/Main.java:366-371 | the app's loader and the first version's loader accept exactly the same lines and read the same kind, amount and category |
| `Compat.LinhaNovaNoLegado` | Main.java:51-57 | the first version reads a four-field line written by the app, dropping the goal name |
| `Compat.LinhaLegadaNoNovo` | app/Main.java:371 | the app reads a three-field line of the first version with an empty goal name |
| `JavaText.Split` | app/Main.java:366 | no field holds the separator; a string without it is one field; the last field is never empty when the string held the separator |
| `JavaText.SplitJoin` | app/Main.java:366 | splitting fields joined by ';' gives them back without their trailing empty fields |
| `JavaText.PiecesOfJoin` | app/Main.java:366 | cutting at every ';' gives back fields joined by ';' |
| `JavaText.DropTrailingEmpty` | app/Main.java:366 | the result is a prefix of the input, ends in a non-empty field, and only empty fields were dropped |
| `JavaText.UpperCaseOfEqualIgnoringCase` | utils/RelatorioHelper.java:10 | strings equal ignoring case are equal once upper-cased, under the ASCII and Latin-1 case mapping |
| `Amounts.Parse` | app/Main.java:369 | blank text never parses; only text starting with '-' gives a negative amount |
| `Amounts.ParseFormat` | app/Main.java:369 | every amount printed by `Double.toString` is parsed back to itself |
| `Amounts.Format` | app/Main.java:381 | the printed amount has at least 3 characters, only digits, '-' and '.', starts with a digit or '-' and ends with a digit |
| `Amounts.NumeralRoundTrip` | app/Main.java:369 | the decimal numeral of a number denotes that number |
| `LineFiles.LoadPrefixLongest` | app/Main.java:365-375 | loading keeps the records of the longest run of parsing lines from the first, each from the line at its position, and stops at a line that does not parse or at the end |
| `LineFiles.Lines` | app/Main.java:380-382 | one line per record, at the record's position |
| `LineFiles.LoadLines` | Main.java:50-58 | loading the saved lines gives the records back when each record's line parses back to it |
| `LineFiles.LoadLinesUpTo` | app/Main.java:365-375 | when one record's line fails to parse, loading keeps exactly the records before it and loses the rest |

## Left out

- JavaFX is not modelled: windows, combo-box cell factories, list views,
  labels, alerts and `main`/`launch`. The alerts appear only as results.
- File handles are not modelled (`File.exists`, readers, writers,
  try-with-resources). A file is `Option<seq<string>>` of its lines, with
  `None` for a missing file. A save returns the lines it would print. Write
  errors, which the source swallows, are not modelled.
- `String.format("%.2f", ...)` is not modelled. It is used by the app's
  `Transacao.toString`, `Meta.toString`, the goal cells and the balance
  label. It is floating-point formatting that depends on the locale.
- `Amounts.Format`: equals `Double.toString` only below 10^7 in magnitude,
  because larger doubles print in scientific notation. Negative zero is not
  modelled.
- `Amounts.Parse`: accepts only plain decimals with at most two decimal
  places. Amounts are whole cents. Exponents, hexadecimal, "NaN",
  "Infinity" and the 'd'/'f' suffixes are read as failures. IEEE rounding
  is not modelled; the rules only compare, add and subtract.
- A `null` kind or category from an unselected combo box is not modelled.
  Kinds and categories are always strings.
- `App.Ledger.SalvarTransacao`: requires the selected goal to be one of the
  goals in the list. The combo box offers only goals of that list, and goals
  are never removed.
- Goal identity is not modelled. A goal is a value in the `metas` list, and
  the combo box's reference to it is its position.
- `JavaText.UpperCaseOfEqualIgnoringCase`: holds only under the modelled
  ASCII/Latin-1 case mapping. In Java, "İ".equalsIgnoreCase("i") is true,
  yet upper-casing gives "İ" and "I".
- `Models.DescreverIgnoraCaixa`: holds only under the same case mapping, for
  the same reason.
- `JavaText.UpperChar`: case mapping covers ASCII and Latin-1 letters only.
  No other character can match "Entrada" ignoring case, so the balance rules
  are unaffected. `toUpperCase` of characters such as 'ß' or 'ÿ' is not
  modelled.
- The type mismatch where app/Main.java:321 passes its own `Transacao` to
  `RelatorioHelper.calcularSaldo` is a build defect. `Compat.SaldosConcordam`
  and `Compat.SaldosDivergem` state how the two balance rules relate instead.
- `atualizarRelatorio` and `atualizarUI` only display values, so they are
  not modelled. Their balance computations are modelled: the stream form is
  `App.SaldoStream` and RelatorioHelper's is `Relatorio.Saldo`.
- The version with goals (app/Main.java) has no way to delete a
  transaction. The version that deletes (Main.java) has no goals.
- Amounts are not validated by the source, so the model does not validate
  them either.
- Saving the files after an action is not modelled. The save methods
  (`App.Ledger.SalvarTransacoes`, `App.Ledger.SalvarMetas`,
  `Legacy.Ledger.SalvarArquivo`) give the lines as they would be printed at
  any point, but the handlers do not call them.
  - The app saves both files after a grant or a recorded transaction, and
    not after a refusal (app/Main.java:291-292).
  - The new-goal handler saves nothing (app/Main.java:147-160).
  - The first version saves after an add and after a delete (Main.java:101
    and 123).
- A saved file is modelled as its list of printed lines. `readLine` splits at
  '\n' and '\r', so this holds only for fields without a line break. The
  file round-trip lemmas therefore require `LineFiles.OneLine` of every
  field. Kinds and categories come from fixed choice lists, and names and
  amounts from one-line text fields.
- The source has no goal deletion, so none is modelled.
