/** A file written by `generate_output` and read back by `parse_from_file`:
    the type 10 records come back as they were, the type 75 records with
    their numbers rounded to the two places written, and every other line,
    the closing type 90 line included, adds nothing. */
module RoundTrip {
  import opened Text
  import opened HeaderRecords
  import opened InventoryRecords
  import opened Registry
  import opened Parser
  import opened Output

  /** The records whose lines `parse_from_file` reads back in full: a type
      10 record that validates and a type 75 record that validates and whose
      numbers fit their columns. */
  predicate Writable(rec: Record) {
    && (rec.Rec10? ==> Valid10(rec.r10))
    && (rec.Rec75? ==> Valid75(rec.r75) && Fits75(rec.r75))
  }

  /** What reading a record's line back adds to the processor. */
  function ReadBack(rec: Record): Option<Record> {
    match rec
    case Rec10(_) => Some(rec)
    case Rec75(r) => Some(Rec75(Rounded75(r)))
    case _ => None
  }

  /** What reading the lines of the records back adds, in order. */
  function ReadBackAll(rs: seq<Record>): seq<Record> {
    if rs == [] then []
    else ReadBackAll(rs[..|rs| - 1]) + Found(ReadBack(rs[|rs| - 1]))
  }

  /** Each line with the carriage return of its CR LF still attached, as
      `split("\n")` leaves it. */
  function CrLines(ls: seq<string>): seq<string> {
    seq(|ls|, i requires 0 <= i < |ls| => ls[i] + "\r")
  }

  // ---------------------------------------------------------------------
  // One line

  /** How a record's line starts: with a digit, the whole line of a type 10
      or type 75 record being that record's line, and the line of every
      other type starting with neither "10" nor "75". */
  predicate LineHead(rec: Record, l: string) {
    && |l| >= 2 && IsDigit(l[0])
    && (rec.Rec10? ==> l == Encode10(rec.r10))
    && (rec.Rec75? ==> l == Encode75(rec.r75))
    && (!rec.Rec10? && !rec.Rec75? ==> l[..2] != "10" && l[..2] != "75")
  }

  /** `LineHead` for the types 10, 11, 50 and 51. */
  lemma HeadsOf10To51(rec: Record, l: string)
    requires rec.Rec10? || rec.Rec11? || rec.Rec50? || rec.Rec51?
    requires EncodeRecord(rec) == Some(l)
    ensures LineHead(rec, l)
  {
  }

  /** `LineHead` for the types 53, 54, 55 and 60M. */
  lemma HeadsOf53To60M(rec: Record, l: string)
    requires rec.Rec53? || rec.Rec54? || rec.Rec55? || rec.Rec60M?
    requires EncodeRecord(rec) == Some(l)
    ensures LineHead(rec, l)
  {
  }

  /** `LineHead` for the types 60A, 60I, 61 and 61R. */
  lemma HeadsOf60ATo61R(rec: Record, l: string)
    requires rec.Rec60A? || rec.Rec60I? || rec.Rec61? || rec.Rec61R?
    requires EncodeRecord(rec) == Some(l)
    ensures LineHead(rec, l)
  {
  }

  /** `LineHead` for the types 70, 71, 74 and 75. */
  lemma HeadsOf70To75(rec: Record, l: string)
    requires rec.Rec70? || rec.Rec71? || rec.Rec74? || rec.Rec75?
    requires EncodeRecord(rec) == Some(l)
    ensures LineHead(rec, l)
  {
  }

  /** `LineHead` for the types 76, 85, 86 and 90. */
  lemma HeadsOf76To90(rec: Record, l: string)
    requires rec.Rec76? || rec.Rec85? || rec.Rec86? || rec.Rec90?
    requires EncodeRecord(rec) == Some(l)
    ensures LineHead(rec, l)
  {
  }

  /** Every line `to_sintegra_line` returns starts as `LineHead` says. */
  lemma EncodedLineHead(rec: Record, l: string)
    requires EncodeRecord(rec) == Some(l)
    ensures LineHead(rec, l)
  {
    if rec.Rec10? || rec.Rec11? || rec.Rec50? || rec.Rec51? {
      HeadsOf10To51(rec, l);
    } else if rec.Rec53? || rec.Rec54? || rec.Rec55? || rec.Rec60M? {
      HeadsOf53To60M(rec, l);
    } else if rec.Rec60A? || rec.Rec60I? || rec.Rec61? || rec.Rec61R? {
      HeadsOf60ATo61R(rec, l);
    } else if rec.Rec70? || rec.Rec71? || rec.Rec74? || rec.Rec75? {
      HeadsOf70To75(rec, l);
    } else {
      HeadsOf76To90(rec, l);
    }
  }

  /** A line that starts as `LineHead` says reads back as `ReadBack` says. */
  lemma RecordLineRead(rec: Record, l: string)
    requires Writable(rec) && LineHead(rec, l)
    ensures LineRecord(l) == ReadBack(rec)
  {
    if rec.Rec10? {
      LineRecord10(rec.r10);
    } else if rec.Rec75? {
      LineRecord75(rec.r75);
    }
  }

  /** The carriage return `split("\n")` leaves is removed before parsing. */
  lemma CrLineRecord(l: string)
    ensures LineRecord(l + "\r") == LineRecord(l)
  {
    assert (l + "\r")[..|l|] == l;
  }

  // ---------------------------------------------------------------------
  // The whole text

  /** The lines of the records read back, each with its carriage return. */
  lemma {:induction false} ParsedCrLines(rs: seq<Record>, ls: seq<string>)
    requires |ls| == |rs|
    requires forall i :: 0 <= i < |rs| ==> LineRecord(ls[i]) == ReadBack(rs[i])
    ensures ParsedRecords(CrLines(ls)) == ReadBackAll(rs)
    decreases |rs|
  {
    if rs != [] {
      var n := |rs| - 1;
      assert CrLines(ls)[..n] == CrLines(ls[..n]);
      ParsedCrLines(rs[..n], ls[..n]);
      CrLineRecord(ls[n]);
    }
  }

  /** The record lines of a file start as `LineHead` says. */
  lemma EncodedHeads(rs: seq<Record>, ls: seq<string>)
    requires EncodeAll(rs, EncodeRecord) == Lines(ls)
    ensures |ls| == |rs|
    ensures forall i :: 0 <= i < |rs| ==> LineHead(rs[i], ls[i])
  {
    if rs != [] {
      EncodeAllLines(rs, EncodeRecord, 0);
    }
    forall i | 0 <= i < |rs|
      ensures LineHead(rs[i], ls[i])
    {
      EncodeAllLines(rs, EncodeRecord, i);
      EncodedLineHead(rs[i], ls[i]);
    }
  }

  /** Lines that start as `LineHead` says read back one by one. */
  lemma LinesReadBack(rs: seq<Record>, ls: seq<string>)
    requires |ls| == |rs|
    requires forall i :: 0 <= i < |rs| ==> Writable(rs[i]) && LineHead(rs[i], ls[i])
    ensures forall i :: 0 <= i < |rs| ==> LineRecord(ls[i]) == ReadBack(rs[i])
  {
    forall i | 0 <= i < |rs|
      ensures LineRecord(ls[i]) == ReadBack(rs[i])
    {
      RecordLineRead(rs[i], ls[i]);
    }
  }

  /** The joined text starts with the first line's first character. */
  lemma {:induction false} JoinFirst(sep: string, ls: seq<string>)
    requires |ls| >= 1 && ls[0] != []
    ensures Join(sep, ls) != [] && Join(sep, ls)[0] == ls[0][0]
    decreases |ls|
  {
    if |ls| > 1 {
      var p := ls[..|ls| - 1];
      JoinFirst(sep, p);
    }
  }

  /** `split("\n")` of lines joined by CR LF: the lines, each but the last
      with its carriage return, the last followed by `tail`. */
  lemma {:induction false} SplitJoined(ls: seq<string>, tail: string)
    requires |ls| >= 1 && forall i :: 0 <= i < |ls| ==> '\n' !in ls[i]
    requires '\n' !in tail
    ensures Split(Join("\r\n", ls) + tail, '\n') == CrLines(ls[..|ls| - 1]) + [ls[|ls| - 1] + tail]
    decreases |ls|
  {
    var n := |ls| - 1;
    var x := ls[n];
    if n == 0 {
      SplitWhole(x + tail, '\n');
    } else {
      var p := ls[..n];
      assert Join("\r\n", ls) + tail == (Join("\r\n", p) + "\r") + ['\n'] + (x + tail);
      SplitAround(Join("\r\n", p) + "\r", '\n', x + tail);
      SplitJoined(p, "\r");
      SplitWhole(x + tail, '\n');
      assert p[..n - 1] == ls[..n - 1];
      CrLinesSnoc(p);
    }
  }

  /** One line more gets one carriage return more. */
  lemma CrLinesSnoc(ls: seq<string>)
    requires |ls| >= 1
    ensures CrLines(ls[..|ls| - 1]) + [ls[|ls| - 1] + "\r"] == CrLines(ls)
  {
  }

  /** The lines `parse_from_file` finds in the text `generate_output`
      writes, when no line holds a line feed and the first and last
      characters are not whitespace. */
  lemma ContentOfLines(ls: seq<string>)
    requires |ls| >= 1 && forall i :: 0 <= i < |ls| ==> '\n' !in ls[i]
    requires ls[0] != [] && !IsSpace(ls[0][0])
    requires ls[|ls| - 1] != [] && !IsSpace(ls[|ls| - 1][|ls[|ls| - 1]| - 1])
    ensures ContentLines(Join("\r\n", ls) + "\r\n") == CrLines(ls[..|ls| - 1]) + [ls[|ls| - 1]]
  {
    var j := Join("\r\n", ls);
    JoinFirst("\r\n", ls);
    assert j[|j| - 1] == ls[|ls| - 1][|ls[|ls| - 1]| - 1];
    StripLineEnd(j);
    SplitJoined(ls, "");
    assert j + "" == j;
    assert ls[|ls| - 1] + "" == ls[|ls| - 1];
  }

  /** The type 90 line closing a file of writable records is a stripped
      line of type 90, and the file is written. */
  lemma TrailerLine(rs: seq<Record>, ls: seq<string>, last: string)
    requires EncodeAll(rs, EncodeRecord) == Lines(ls)
    requires forall i :: 0 <= i < |rs| ==> Writable(rs[i])
    requires HeaderOf(rs).Some? && Trailer(HeaderOf(rs).value, TotalsOf(rs)).Ok?
    requires Encode90(Trailer(HeaderOf(rs).value, TotalsOf(rs)).value) == Some(last)
    ensures |last| == 126 && last[..2] == "90" && last[125] == '1'
    ensures FileOutput(rs) == Written(Join("\r\n", ls + [last]) + "\r\n")
  {
    var h := HeaderOf(rs).value;
    HeaderOfFirst(rs);
    var i :| 0 <= i < |rs| && rs[i] == Rec10(h) && forall j :: 0 <= j < i ==> !rs[j].Rec10?;
    assert Writable(rs[i]);
    FirstSeenClassNames(rs);
    TotalsBounds(FirstSeen(rs), Counts(rs));
    TrailerFor(h, TotalsOf(rs));
    TrailerLayout(h, TotalsOf(rs));
    assert last[125..][0] == last[125];
  }

  /** The record lines, each with its carriage return, read back; the
      first of them starts with a digit. */
  lemma RecordLinesReadBack(rs: seq<Record>, ls: seq<string>)
    requires EncodeAll(rs, EncodeRecord) == Lines(ls)
    requires forall i :: 0 <= i < |rs| ==> Writable(rs[i])
    ensures |ls| == |rs|
    ensures rs != [] ==> ls[0] != [] && IsDigit(ls[0][0])
    ensures ParsedRecords(CrLines(ls)) == ReadBackAll(rs)
  {
    EncodedHeads(rs, ls);
    LinesReadBack(rs, ls);
    ParsedCrLines(rs, ls);
  }

  /** The closing type 90 line adds nothing. */
  lemma TrailerSkipped(ls: seq<string>, last: string)
    requires |last| >= 2 && last[..2] == "90"
    ensures ParsedRecords(CrLines(ls) + [last]) == ParsedRecords(CrLines(ls))
  {
    var lines := CrLines(ls) + [last];
    assert lines[..|lines| - 1] == CrLines(ls);
  }

  /** The lines `parse_from_file` finds in the text of record lines and a
      closing type 90 line. */
  lemma TextLines(ls: seq<string>, last: string)
    requires ls != [] && ls[0] != [] && IsDigit(ls[0][0])
    requires |last| == 126 && last[..2] == "90" && last[125] == '1'
    requires forall i :: 0 <= i < |ls| ==> '\n' !in ls[i]
    requires '\n' !in last
    ensures ContentLines(Join("\r\n", ls + [last]) + "\r\n") == CrLines(ls) + [last]
  {
    var all := ls + [last];
    assert all[..|all| - 1] == ls && all[|all| - 1] == last;
    assert all[0] == ls[0];
    forall i | 0 <= i < |all|
      ensures '\n' !in all[i]
    {
      if i < |ls| {
        assert all[i] == ls[i];
      }
    }
    assert !IsSpace(last[|last| - 1]);
    ContentOfLines(all);
  }

  /** A file `generate_output` writes from records that can be written and
      whose lines hold no line feed: `parse_from_file` finds one line per
      record, in order, and the type 90 line last, and reads them back as
      the type 10 records and the rounded type 75 records, in order. */
  lemma FileReadBack(rs: seq<Record>, ls: seq<string>, last: string)
    requires EncodeAll(rs, EncodeRecord) == Lines(ls)
    requires forall i :: 0 <= i < |rs| ==> Writable(rs[i])
    requires HeaderOf(rs).Some? && Trailer(HeaderOf(rs).value, TotalsOf(rs)).Ok?
    requires Encode90(Trailer(HeaderOf(rs).value, TotalsOf(rs)).value) == Some(last)
    requires forall i :: 0 <= i < |ls| ==> '\n' !in ls[i]
    requires '\n' !in last
    ensures FileOutput(rs) == Written(Join("\r\n", ls + [last]) + "\r\n")
    ensures ContentLines(FileOutput(rs).text) == CrLines(ls) + [last]
    ensures ParsedRecords(ContentLines(FileOutput(rs).text)) == ReadBackAll(rs)
  {
    TrailerLine(rs, ls, last);
    RecordLinesReadBack(rs, ls);
    TextLines(ls, last);
    TrailerSkipped(ls, last);
  }
}
