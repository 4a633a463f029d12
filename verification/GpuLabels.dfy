/** The comma separated GPU list kept in the flexctl.gpu_indices label. */
module GpuLabels {
  import opened Wrappers
  import opened Text
  import opened Decimal

  function Printed(idx: seq<int>): (parts: seq<string>)
    ensures |parts| == |idx|
    ensures forall k :: 0 <= k < |idx| ==> parts[k] == Itoa(idx[k])
  {
    seq(|idx|, k requires 0 <= k < |idx| => Itoa(idx[k]))
  }

  function Csv(idx: seq<int>): string {
    Join(Printed(idx), ',')
  }

  /** The parts that are integers, in order; the others are skipped. */
  function Parsed(parts: seq<string>): (out: seq<int>)
    ensures |out| <= |parts|
  {
    if parts == [] then []
    else
      var front := Parsed(parts[..|parts| - 1]);
      match Atoi(TrimSpace(parts[|parts| - 1]))
      case Some(n) => front + [n]
      case None => front
  }

  function ParseCsv(s: string): seq<int> {
    var t := TrimSpace(s);
    if t == "" then [] else Parsed(Split(t, ','))
  }

  method IndicesCSV(idx: seq<int>) returns (s: string)
    ensures s == Csv(idx)
  {
    var parts: seq<string> := [];
    for k := 0 to |idx|
      invariant parts == Printed(idx[..k])
    {
      parts := parts + [Itoa(idx[k])];
      assert parts == Printed(idx[..k + 1]);
    }
    assert idx[..|idx|] == idx;
    s := Join(parts, ',');
  }

  method ParseIndicesCSV(s: string) returns (out: seq<int>)
    ensures out == ParseCsv(s)
  {
    var t := TrimSpace(s);
    if t == "" {
      return [];
    }
    var parts := Split(t, ',');
    out := [];
    for k := 0 to |parts|
      invariant out == Parsed(parts[..k])
    {
      assert parts[..k + 1][..k] == parts[..k];
      match Atoi(TrimSpace(parts[k])) {
        case Some(n) => out := out + [n];
        case None =>
      }
    }
    assert parts[..|parts|] == parts;
  }

  /** Text that neither starts nor ends with white space is not trimmed. */
  lemma PrintedNotTrimmed(s: string)
    requires s != [] && forall c :: c in s ==> IsDigit(c) || c == '-' || c == ','
    ensures TrimSpace(s) == s
  {
    assert s[0] in s && s[|s| - 1] in s;
  }

  lemma {:induction false} CsvAlphabet(idx: seq<int>)
    requires idx != []
    ensures Csv(idx) != []
    ensures forall c :: c in Csv(idx) ==> IsDigit(c) || c == '-' || c == ','
  {
    var parts := Printed(idx);
    ItoaAlphabet(idx[|idx| - 1]);
    if |idx| > 1 {
      var front := idx[..|idx| - 1];
      CsvAlphabet(front);
      assert parts[..|parts| - 1] == Printed(front);
    }
  }

  lemma AtoiPrinted(n: int)
    requires IsInt64(n)
    ensures Atoi(TrimSpace(Itoa(n))) == Some(n)
  {
    ItoaAlphabet(n);
    PrintedNotTrimmed(Itoa(n));
    AtoiItoa(n);
  }

  lemma ParsedLast(parts: seq<string>, part: string, n: int)
    requires Atoi(TrimSpace(part)) == Some(n)
    ensures Parsed(parts + [part]) == Parsed(parts) + [n]
  {
    assert (parts + [part])[..|parts|] == parts;
  }

  lemma {:induction false} ParsedAll(parts: seq<string>, ns: seq<int>)
    requires |parts| == |ns|
    requires forall k :: 0 <= k < |parts| ==> Atoi(TrimSpace(parts[k])) == Some(ns[k])
    ensures Parsed(parts) == ns
  {
    if parts != [] {
      var n := |parts| - 1;
      ParsedAll(parts[..n], ns[..n]);
      ParsedLast(parts[..n], parts[n], ns[n]);
      assert parts == parts[..n] + [parts[n]] && ns == ns[..n] + [ns[n]];
    }
  }

  lemma ParsedPrinted(idx: seq<int>)
    requires forall i :: i in idx ==> IsInt64(i)
    ensures Parsed(Printed(idx)) == idx
  {
    forall k | 0 <= k < |idx| ensures Atoi(TrimSpace(Printed(idx)[k])) == Some(idx[k]) {
      AtoiPrinted(idx[k]);
    }
    ParsedAll(Printed(idx), idx);
  }

  /** Reading a label gives back the list that was written, for every list of ints. */
  lemma ParseCsvOfCsv(idx: seq<int>)
    requires forall i :: i in idx ==> IsInt64(i)
    ensures ParseCsv(Csv(idx)) == idx
  {
    if idx != [] {
      CsvAlphabet(idx);
      PrintedNotTrimmed(Csv(idx));
      forall p | p in Printed(idx) ensures ',' !in p {
        var k :| 0 <= k < |idx| && p == Itoa(idx[k]);
        ItoaAlphabet(idx[k]);
      }
      SplitJoin(Printed(idx), ',');
      ParsedPrinted(idx);
    }
  }

  /** Different lists have different labels. */
  lemma CsvInjective(a: seq<int>, b: seq<int>)
    requires forall i :: i in a || i in b ==> IsInt64(i)
    requires Csv(a) == Csv(b)
    ensures a == b
  {
    ParseCsvOfCsv(a);
    ParseCsvOfCsv(b);
  }

  /** Commas between the numbers and nothing else. */
  lemma CsvOf(idx: seq<int>, last: int)
    ensures Csv([]) == "" && Csv([last]) == Itoa(last)
    ensures idx != [] ==> Csv(idx + [last]) == Csv(idx) + "," + Itoa(last)
  {
    assert Printed([last]) == [Itoa(last)];
    if idx != [] {
      assert Printed(idx + [last]) == Printed(idx) + [Itoa(last)];
      JoinLast(Printed(idx), Itoa(last), ',');
    }
  }
}
