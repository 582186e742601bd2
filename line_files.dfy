/** The shape shared by every reader and writer of the ledger's text files:
    one record per line, written in list order, read back until the first
    line that cannot be parsed. */
module LineFiles {
  import opened Wrappers

  /** The records a load loop collects: each line is parsed in turn, and the
      first failure ends the loop, keeping the records already collected. */
  function LoadPrefix<T>(lines: seq<string>, parse: string -> Option<T>): seq<T>
  {
    if |lines| == 0 then []
    else
      match parse(lines[0])
      case None => []
      case Some(x) => [x] + LoadPrefix(lines[1..], parse)
  }

  /** What is loaded is the records of the longest run of lines, from the
      first, that parse: every record comes from the line at its position,
      and loading stopped at a line that does not parse or at the end. */
  lemma {:induction false} LoadPrefixLongest<T>(lines: seq<string>, parse: string -> Option<T>)
    ensures var r := LoadPrefix(lines, parse);
      && |r| <= |lines|
      && (forall i :: 0 <= i < |r| ==> parse(lines[i]) == Some(r[i]))
      && (|r| < |lines| ==> parse(lines[|r|]).None?)
  {
    if |lines| > 0 && parse(lines[0]).Some? {
      LoadPrefixLongest(lines[1..], parse);
      var r := LoadPrefix(lines, parse);
      assert forall i :: 1 <= i < |r| ==> r[i] == r[1..][i - 1] && lines[i] == lines[1..][i - 1];
    }
  }

  /** `readLine` ends a line at '\n' or '\r', so a printed text is read back
      as one line of the file only when it holds neither. */
  predicate OneLine(s: string)
  {
    '\n' !in s && '\r' !in s
  }

  /** The lines a save loop prints: one per record, in list order. */
  function Lines<T>(xs: seq<T>, format: T -> string): (r: seq<string>)
    ensures |r| == |xs|
    ensures forall i :: 0 <= i < |xs| ==> r[i] == format(xs[i])
  {
    if |xs| == 0 then [] else [format(xs[0])] + Lines(xs[1..], format)
  }

  /** Loading what was saved gives the list back when every record's line
      parses back to that record. */
  lemma {:induction false} LoadLines<T>(xs: seq<T>, format: T -> string, parse: string -> Option<T>)
    requires forall i :: 0 <= i < |xs| ==> parse(format(xs[i])) == Some(xs[i])
    ensures LoadPrefix(Lines(xs, format), parse) == xs
  {
    if |xs| > 0 {
      LoadLines(xs[1..], format, parse);
      assert Lines(xs, format)[1..] == Lines(xs[1..], format);
      assert [xs[0]] + xs[1..] == xs;
    }
  }

  /** Loading what was saved stops at the first record whose line fails to
      parse, keeping exactly the records before it. */
  lemma {:induction false} LoadLinesUpTo<T>(xs: seq<T>, format: T -> string, parse: string -> Option<T>, k: nat)
    requires k < |xs|
    requires forall i :: 0 <= i < k ==> parse(format(xs[i])) == Some(xs[i])
    requires parse(format(xs[k])).None?
    ensures LoadPrefix(Lines(xs, format), parse) == xs[..k]
  {
    if k > 0 {
      LoadLinesUpTo(xs[1..], format, parse, k - 1);
      assert Lines(xs, format)[1..] == Lines(xs[1..], format);
      assert [xs[0]] + xs[1..][..k - 1] == xs[..k];
    }
  }

  /** One step of a load loop: the rest of the file from line `i` on. */
  lemma LoadPrefixStep<T>(lines: seq<string>, i: nat, parse: string -> Option<T>)
    requires i < |lines|
    ensures parse(lines[i]).None? ==> LoadPrefix(lines[i..], parse) == []
    ensures parse(lines[i]).Some? ==>
      LoadPrefix(lines[i..], parse) == [parse(lines[i]).value] + LoadPrefix(lines[i + 1..], parse)
  {
    assert lines[i..][1..] == lines[i + 1..];
  }
}
