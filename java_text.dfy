/** The parts of java.lang.String that the ledger relies on: `split` on a
    one-character delimiter, `toUpperCase` and `equalsIgnoreCase`. */
module JavaText {

  /** Every piece of `s` between occurrences of `sep`, empty pieces included;
      there is always one more piece than there are separators. */
  function Pieces(s: string, sep: char): (r: seq<string>)
    ensures |r| >= 1
    ensures forall i :: 0 <= i < |r| ==> sep !in r[i]
  {
    if |s| == 0 then [""]
    else
      var rest := Pieces(s[1..], sep);
      if s[0] == sep then [""] + rest
      else [[s[0]] + rest[0]] + rest[1..]
  }

  /** Removes the empty strings at the end of a list, as
      `String.split(regex)` (limit 0) does. */
  function DropTrailingEmpty(fields: seq<string>): (r: seq<string>)
    ensures |r| <= |fields| && r == fields[..|r|]
    ensures r == [] || r[|r| - 1] != ""
    ensures forall i :: |r| <= i < |fields| ==> fields[i] == ""
  {
    if |fields| == 0 then []
    else if fields[|fields| - 1] == "" then DropTrailingEmpty(fields[..|fields| - 1])
    else fields
  }

  /** `s.split(String.valueOf(sep))`: a string without the delimiter comes
      back whole (so "" gives [""]); otherwise the pieces, with trailing
      empty pieces dropped (so ";" gives []). */
  function Split(s: string, sep: char): (r: seq<string>)
    ensures forall i :: 0 <= i < |r| ==> sep !in r[i]
    ensures sep !in s ==> r == [s]
    ensures sep in s ==> r == [] || r[|r| - 1] != ""
  {
    if sep !in s then [s] else DropTrailingEmpty(Pieces(s, sep))
  }

  /** The fields written one after the other with `sep` between them. */
  function Join(fields: seq<string>, sep: char): string
    requires |fields| >= 1
  {
    if |fields| == 1 then fields[0] else fields[0] + [sep] + Join(fields[1..], sep)
  }

  predicate NoSeparator(fields: seq<string>, sep: char)
  {
    forall i :: 0 <= i < |fields| ==> sep !in fields[i]
  }

  lemma {:induction false} PiecesWithoutSeparator(a: string, sep: char)
    requires sep !in a
    ensures Pieces(a, sep) == [a]
  {
    if |a| > 0 {
      PiecesWithoutSeparator(a[1..], sep);
      assert [a[0]] + a[1..] == a;
    }
  }

  lemma {:induction false} PiecesAfterField(a: string, sep: char, b: string)
    requires sep !in a
    ensures Pieces(a + [sep] + b, sep) == [a] + Pieces(b, sep)
  {
    var s := a + [sep] + b;
    if |a| == 0 {
      assert s[0] == sep && s[1..] == b;
    } else {
      assert s[0] == a[0] && s[1..] == a[1..] + [sep] + b;
      PiecesAfterField(a[1..], sep, b);
      assert [a[0]] + a[1..] == a;
    }
  }

  /** Splitting a joined line gives the fields back, as long as no field
      holds the separator. */
  lemma {:induction false} PiecesOfJoin(fields: seq<string>, sep: char)
    requires |fields| >= 1 && NoSeparator(fields, sep)
    ensures Pieces(Join(fields, sep), sep) == fields
  {
    if |fields| == 1 {
      PiecesWithoutSeparator(fields[0], sep);
    } else {
      PiecesOfJoin(fields[1..], sep);
      PiecesAfterField(fields[0], sep, Join(fields[1..], sep));
      assert [fields[0]] + fields[1..] == fields;
    }
  }

  lemma {:induction false} SeparatorInJoin(fields: seq<string>, sep: char)
    requires |fields| >= 2
    ensures sep in Join(fields, sep)
  {
    assert Join(fields, sep)[|fields[0]|] == sep;
  }

  /** `String.split` of a joined line: the fields come back, except that
      trailing empty fields are lost. */
  lemma SplitJoin(fields: seq<string>, sep: char)
    requires |fields| >= 2 && NoSeparator(fields, sep)
    ensures Split(Join(fields, sep), sep) == DropTrailingEmpty(fields)
  {
    SeparatorInJoin(fields, sep);
    PiecesOfJoin(fields, sep);
  }

  /** `Character.toUpperCase` on the letters of ASCII and Latin-1. */
  function UpperChar(c: char): char
  {
    if 'a' <= c <= 'z' then (c as int - 32) as char
    else if 'à' <= c <= 'þ' && c != '÷' then (c as int - 32) as char
    else c
  }

  /** `String.toUpperCase`, character by character. */
  function ToUpperCase(s: string): (r: string)
    ensures |r| == |s|
  {
    if |s| == 0 then "" else [UpperChar(s[0])] + ToUpperCase(s[1..])
  }

  /** `String.equalsIgnoreCase`: same length, and each pair of characters is
      equal or equal once upper-cased. */
  predicate EqualsIgnoreCase(a: string, b: string)
  {
    |a| == |b| && forall i :: 0 <= i < |a| ==> a[i] == b[i] || UpperChar(a[i]) == UpperChar(b[i])
  }

  /** Two strings that are equal ignoring case print the same once
      upper-cased. */
  lemma {:induction false} UpperCaseOfEqualIgnoringCase(a: string, b: string)
    requires EqualsIgnoreCase(a, b)
    ensures ToUpperCase(a) == ToUpperCase(b)
  {
    if |a| > 0 {
      assert EqualsIgnoreCase(a[1..], b[1..]) by {
        forall i | 0 <= i < |a| - 1
          ensures a[1..][i] == b[1..][i] || UpperChar(a[1..][i]) == UpperChar(b[1..][i])
        {
          assert a[1..][i] == a[i + 1] && b[1..][i] == b[i + 1];
        }
      }
      UpperCaseOfEqualIgnoringCase(a[1..], b[1..]);
    }
  }

}
