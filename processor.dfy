/** `SintegraProcessor`: the list of records added, the count of each record
    class, the file text `generate_output` writes and the processor
    `parse_from_file` builds from the text of a file. */
module Processor {
  import opened Text
  import opened Fields
  import opened HeaderRecords
  import opened Registry
  import opened Parser
  import opened Output

  class SintegraProcessor {
    /** `records`, in the order they were added. */
    var records: seq<Record>
    /** `_record_counts`: class name to number of records of the class. */
    var recordCounts: map<string, nat>
    /** The keys of `_record_counts` in the order the dictionary keeps them. */
    var countOrder: seq<string>

    /** The counts and their key order are those of the records. */
    ghost predicate Valid()
      reads this
    {
      recordCounts == Counts(records) && countOrder == FirstSeen(records)
    }

    /** `SintegraProcessor()`: no records and no counts. */
    constructor ()
      ensures Valid()
      ensures records == [] && recordCounts == map[] && countOrder == []
    {
      records := [];
      recordCounts := map[];
      countOrder := [];
    }

    /** `add_record(record)`: appended, and its class counted once more; a
        class counted for the first time takes the last place in the key
        order. */
    method AddRecord(rec: Record)
      requires Valid()
      modifies this
      ensures Valid()
      ensures records == old(records) + [rec]
      ensures recordCounts == Bump(old(recordCounts), NameOf(rec))
      ensures countOrder ==
        if NameOf(rec) in old(countOrder) then old(countOrder) else old(countOrder) + [NameOf(rec)]
    {
      var k := NameOf(rec);
      FirstSeenKeys(records);
      CountsOccurrences(records, k);
      if k !in recordCounts {
        countOrder := countOrder + [k];
      }
      recordCounts := Bump(recordCounts, k);
      records := records + [rec];
      assert records[..|records| - 1] == old(records);
    }

    /** `get_record_counts()`: a copy of the counts, with the order of their
        keys. */
    method GetRecordCounts() returns (counts: map<string, nat>, order: seq<string>)
      requires Valid()
      ensures counts == Counts(records) && order == FirstSeen(records)
    {
      counts := recordCounts;
      order := countOrder;
    }

    /** `clear_records()`: no records and no counts left. */
    method ClearRecords()
      requires Valid()
      modifies this
      ensures Valid()
      ensures records == [] && recordCounts == map[] && countOrder == []
    {
      records := [];
      recordCounts := map[];
      countOrder := [];
    }

    /** The first loop of `generate_output`: `to_sintegra_line` of each
        record in order, stopping at the first that raises. */
    method RecordLines() returns (e: Encoded)
      ensures e == EncodeAll(records, EncodeRecord)
    {
      var lines: seq<string> := [];
      var i := 0;
      while i < |records|
        invariant 0 <= i <= |records|
        invariant EncodeAll(records[..i], EncodeRecord) == Lines(lines)
      {
        assert records[..i + 1][..i] == records[..i];
        var line := EncodeRecord(records[i]);
        if line.None? {
          EncodeAllStops(records, EncodeRecord, i + 1);
          return BadRecord(i);
        }
        lines := lines + [line.value];
        i := i + 1;
      }
      assert records[..i] == records;
      e := Lines(lines);
    }

    /** The search `next(...)` of `generate_output` for the first type 10
        record. */
    method FindHeader() returns (header: Option<Registro10>)
      ensures header == HeaderOf(records)
    {
      header := None;
      var j := 0;
      while j < |records| && header.None?
        invariant 0 <= j <= |records|
        invariant header.None? ==> HeaderOf(records) == HeaderOf(records[j..])
        invariant header.Some? ==> HeaderOf(records) == header
      {
        assert records[j..][1..] == records[j + 1..];
        if records[j].Rec10? {
          header := Some(records[j].r10);
        }
        j := j + 1;
      }
    }

    /** The loop of `generate_output` over `_record_counts.items()`: the
        parts of every class but type 90, joined. */
    method Totalization() returns (parts: string)
      requires Valid()
      ensures parts == TotalsOf(records)
    {
      FirstSeenCounted(records);
      var order, counts := countOrder, recordCounts;
      parts := "";
      var k := 0;
      while k < |order|
        invariant 0 <= k <= |order|
        invariant parts == Totals(order[..k], counts)
      {
        var name := order[k];
        TotalsStep(order, counts, k);
        if name != "Registro90" {
          parts := parts + TotalPart(name, counts[name]);
        }
        k := k + 1;
      }
      assert order[..k] == order;
    }

    /** `generate_output()`: the record lines in order, then the type 90
        line built from the first type 10 record and the counts. */
    method GenerateOutput() returns (out: Outcome)
      requires Valid()
      ensures out == FileOutput(records)
    {
      if |records| == 0 {
        return Failed(NoRecords);
      }
      var e := RecordLines();
      if e.BadRecord? {
        return Failed(BadRecordLine(e.index));
      }
      var header := FindHeader();
      if header.None? {
        return Failed(MissingHeader);
      }
      var parts := Totalization();
      var trailer := Trailer(header.value, parts);
      if trailer.Err? {
        return Failed(TrailerRejected(trailer.field));
      }
      var last := Encode90(trailer.value);
      if last.None? {
        return Failed(BadTrailerLine);
      }
      out := Written(Join("\r\n", e.lines + [last.value]) + "\r\n");
    }

    /** The body of the line loop of `parse_from_file`: the line's record,
        when it has one, is added. */
    method AddLine(line: string)
      requires Valid()
      modifies this
      ensures Valid()
      ensures records == old(records) + Found(LineRecord(line))
    {
      var rec := LineRecord(line);
      if rec.Some? {
        AddRecord(rec.value);
      }
    }

    /** `parse_from_file`, given the text of the file: a new processor with
        each line's record added in turn. */
    static method ParseContent(content: string) returns (p: SintegraProcessor)
      ensures fresh(p) && p.Valid()
      ensures p.records == ParsedRecords(ContentLines(content))
    {
      p := new SintegraProcessor();
      var lines := ContentLines(content);
      var i := 0;
      while i < |lines|
        invariant 0 <= i <= |lines|
        invariant p.Valid() && p.records == ParsedRecords(lines[..i])
        modifies p
      {
        ParsedStep(lines, i);
        p.AddLine(lines[i]);
        i := i + 1;
      }
      assert lines[..i] == lines;
    }
  }
}
