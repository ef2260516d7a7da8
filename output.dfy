/** What `SintegraProcessor` keeps and what `generate_output` makes of it,
    as functions of the record list: the type counts with the order in which
    their keys were first inserted, the record lines, the first type 10
    record, the totalization text and the closing type 90 line. */
module Output {
  import opened Text
  import opened Fields
  import opened Scan
  import opened HeaderRecords
  import opened Registry

  // ---------------------------------------------------------------------
  // The type counts of `add_record`

  /** The class name of each record, in order. */
  function Names(rs: seq<Record>): (ns: seq<string>)
    ensures |ns| == |rs|
    ensures forall i :: 0 <= i < |rs| ==> ns[i] == NameOf(rs[i])
  {
    if rs == [] then [] else Names(rs[..|rs| - 1]) + [NameOf(rs[|rs| - 1])]
  }

  /** `counts[k] = counts.get(k, 0) + 1`. */
  function Bump(counts: map<string, nat>, k: string): map<string, nat> {
    counts[k := (if k in counts then counts[k] else 0) + 1]
  }

  /** `_record_counts` after the records were added one by one. */
  function Counts(rs: seq<Record>): (c: map<string, nat>)
    ensures forall k :: k in c ==> 1 <= c[k] <= |rs|
  {
    if rs == [] then map[] else Bump(Counts(rs[..|rs| - 1]), NameOf(rs[|rs| - 1]))
  }

  /** The keys of `_record_counts` in insertion order, the order in which
      `items()` gives them: a key keeps the place it got when first inserted. */
  function FirstSeen(rs: seq<Record>): (ks: seq<string>)
    ensures |ks| <= |rs|
    ensures rs != [] ==> ks != [] && ks[0] == NameOf(rs[0])
  {
    if rs == [] then []
    else
      var ks := FirstSeen(rs[..|rs| - 1]);
      var k := NameOf(rs[|rs| - 1]);
      if k in ks then ks else ks + [k]
  }

  /** Each count is the number of records of the class: a class is a key
      exactly when a record of it was added, and then counts its records. */
  lemma {:induction false} CountsOccurrences(rs: seq<Record>, k: string)
    ensures k in Counts(rs) <==> k in Names(rs)
    ensures (if k in Counts(rs) then Counts(rs)[k] else 0) == multiset(Names(rs))[k]
  {
    if rs != [] {
      var p := rs[..|rs| - 1];
      CountsOccurrences(p, k);
      assert Names(rs) == Names(p) + [NameOf(rs[|rs| - 1])];
    }
  }

  /** The key order holds each class name once, and exactly the names of
      the records added. */
  lemma {:induction false} FirstSeenKeys(rs: seq<Record>)
    ensures forall k :: k in FirstSeen(rs) <==> k in Names(rs)
    ensures forall i, j :: 0 <= i < j < |FirstSeen(rs)| ==> FirstSeen(rs)[i] != FirstSeen(rs)[j]
  {
    if rs != [] {
      var p := rs[..|rs| - 1];
      FirstSeenKeys(p);
      assert Names(rs) == Names(p) + [NameOf(rs[|rs| - 1])];
    }
  }

  /** Keys are in the order of first insertion: a key stands before another
      exactly when its class was first added before the other's. */
  lemma {:induction false} FirstSeenOrder(rs: seq<Record>, i: nat, j: nat)
    requires i < j < |FirstSeen(rs)|
    ensures FirstSeen(rs)[i] in Names(rs) && FirstSeen(rs)[j] in Names(rs)
    ensures FirstIndex(Names(rs), FirstSeen(rs)[i]) < FirstIndex(Names(rs), FirstSeen(rs)[j])
  {
    FirstSeenKeys(rs);
    var p := rs[..|rs| - 1];
    var np := Names(p);
    assert Names(rs) == np + [NameOf(rs[|rs| - 1])];
    FirstSeenKeys(p);
    var a := FirstSeen(rs)[i];
    var b := FirstSeen(rs)[j];
    if j < |FirstSeen(p)| {
      FirstSeenOrder(p, i, j);
      FirstIndexPrefix(np, [NameOf(rs[|rs| - 1])], a);
      FirstIndexPrefix(np, [NameOf(rs[|rs| - 1])], b);
    } else {
      assert a in np;
      FirstIndexPrefix(np, [NameOf(rs[|rs| - 1])], a);
      assert b !in np;
      FirstIndexAfter(np, [NameOf(rs[|rs| - 1])], b);
    }
  }

  /** The position of the first occurrence of k. */
  function FirstIndex(ns: seq<string>, k: string): (i: nat)
    requires k in ns
    ensures i < |ns| && ns[i] == k
    ensures forall j :: 0 <= j < i ==> ns[j] != k
  {
    if ns[0] == k then 0 else 1 + FirstIndex(ns[1..], k)
  }

  lemma {:induction false} FirstIndexPrefix(a: seq<string>, b: seq<string>, k: string)
    requires k in a
    ensures k in a + b && FirstIndex(a + b, k) == FirstIndex(a, k)
  {
    var i := FirstIndex(a, k);
    assert (a + b)[i] == k;
    var f := FirstIndex(a + b, k);
    assert f <= i;
    assert a[f] == k;
  }

  lemma FirstIndexAfter(a: seq<string>, b: seq<string>, k: string)
    requires k !in a && k in b
    ensures k in a + b && FirstIndex(a + b, k) >= |a|
  {
    assert forall j :: 0 <= j < |a| ==> (a + b)[j] == a[j];
  }

  // ---------------------------------------------------------------------
  // The record lines

  /** The outcome of the loop over the records: the lines, or the position
      of the first record whose `to_sintegra_line` raises. */
  datatype Encoded = Lines(lines: seq<string>) | BadRecord(index: nat)

  /** The loop `for record in self.records: lines.append(...)` with `line`
      standing for `to_sintegra_line`. */
  function EncodeAll(rs: seq<Record>, line: Record -> Option<string>): (e: Encoded)
    ensures e.Lines? ==> |e.lines| == |rs|
    ensures e.BadRecord? ==> e.index < |rs| && line(rs[e.index]).None?
  {
    if rs == [] then Lines([])
    else
      match EncodeAll(rs[..|rs| - 1], line)
      case BadRecord(i) => BadRecord(i)
      case Lines(ls) =>
        match line(rs[|rs| - 1])
        case None => BadRecord(|rs| - 1)
        case Some(l) => Lines(ls + [l])
  }

  /** When every record has a line, they are the lines in record order. */
  lemma {:induction false} EncodeAllLines(rs: seq<Record>, line: Record -> Option<string>, i: nat)
    requires EncodeAll(rs, line).Lines? && i < |rs|
    ensures |EncodeAll(rs, line).lines| == |rs|
    ensures line(rs[i]) == Some(EncodeAll(rs, line).lines[i])
  {
    var p := rs[..|rs| - 1];
    if i < |p| {
      EncodeAllLines(p, line, i);
      assert p[i] == rs[i];
    } else if p != [] {
      EncodeAllLines(p, line, 0);
    }
  }

  /** Otherwise the error names the first record without a line. */
  lemma {:induction false} EncodeAllBad(rs: seq<Record>, line: Record -> Option<string>)
    requires EncodeAll(rs, line).BadRecord?
    ensures EncodeAll(rs, line).index < |rs|
    ensures line(rs[EncodeAll(rs, line).index]).None?
    ensures forall j :: 0 <= j < EncodeAll(rs, line).index ==> line(rs[j]).Some?
  {
    var p := rs[..|rs| - 1];
    assert forall i :: 0 <= i < |p| ==> p[i] == rs[i];
    if EncodeAll(p, line).BadRecord? {
      EncodeAllBad(p, line);
    } else {
      forall j | 0 <= j < |p| ensures line(rs[j]).Some? {
        EncodeAllLines(p, line, j);
      }
    }
  }

  /** A record without a line stops the loop, whatever follows it. */
  lemma {:induction false} EncodeAllStops(rs: seq<Record>, line: Record -> Option<string>, n: nat)
    requires n <= |rs| && EncodeAll(rs[..n], line).BadRecord?
    ensures EncodeAll(rs, line) == EncodeAll(rs[..n], line)
    decreases |rs| - n
  {
    if n < |rs| {
      assert rs[..n + 1][..n] == rs[..n];
      EncodeAllStops(rs, line, n + 1);
    } else {
      assert rs[..n] == rs;
    }
  }

  // ---------------------------------------------------------------------
  // The type 10 record

  /** `next((r for r in records if isinstance(r, Registro10)), None)`. */
  function HeaderOf(rs: seq<Record>): (h: Option<Registro10>)
    ensures h.Some? ==> Rec10(h.value) in rs
  {
    if rs == [] then None
    else if rs[0].Rec10? then Some(rs[0].r10)
    else HeaderOf(rs[1..])
  }

  /** The header is the earliest type 10 record, and there is none exactly
      when no record is of type 10. */
  lemma {:induction false} HeaderOfFirst(rs: seq<Record>)
    ensures HeaderOf(rs).None? <==> forall i :: 0 <= i < |rs| ==> !rs[i].Rec10?
    ensures HeaderOf(rs).Some? ==>
      exists i :: 0 <= i < |rs| && rs[i] == Rec10(HeaderOf(rs).value) &&
        forall j :: 0 <= j < i ==> !rs[j].Rec10?
  {
    if rs != [] && !rs[0].Rec10? {
      HeaderOfFirst(rs[1..]);
      assert forall i :: 0 < i < |rs| ==> rs[i] == rs[1..][i - 1];
      if HeaderOf(rs).Some? {
        var i :| 0 <= i < |rs[1..]| && rs[1..][i] == Rec10(HeaderOf(rs).value) &&
          forall j :: 0 <= j < i ==> !rs[1..][j].Rec10?;
        assert rs[i + 1] == Rec10(HeaderOf(rs).value);
        assert forall j :: 0 <= j < i + 1 ==> !rs[j].Rec10? by {
          forall j | 0 <= j < i + 1 ensures !rs[j].Rec10? {
            if j > 0 { assert rs[j] == rs[1..][j - 1]; }
          }
        }
      }
    }
  }

  // ---------------------------------------------------------------------
  // The totalization text

  /** `f"{type_code}{count:08d}"` for the class named `name`. */
  function TotalPart(name: string, count: nat): (s: string)
    ensures |s| >= 8
    ensures count < Pow10(8) ==>
      AllDigits(s[|s| - 8..]) && DigitsValue(s[|s| - 8..]) == count
  {
    ZeroPadLength(count, 8);
    ZeroPadValue(count, 8);
    var s := RemoveAll(name, "Registro") + ZeroPad(count, 8);
    assert count < Pow10(8) ==> s[|s| - 8..] == ZeroPad(count, 8);
    s
  }

  /** The loop over `_record_counts.items()`: one part per key other than
      "Registro90", joined. */
  function Totals(order: seq<string>, counts: map<string, nat>): (t: string)
    requires forall k :: k in order ==> k in counts
    ensures |t| >= 8 * CountedKeys(order)
  {
    if order == [] then ""
    else
      var k := order[|order| - 1];
      Totals(order[..|order| - 1], counts) +
        (if k != "Registro90" then TotalPart(k, counts[k]) else "")
  }

  /** One more key adds its part, unless it is "Registro90". */
  lemma TotalsStep(order: seq<string>, counts: map<string, nat>, k: nat)
    requires k < |order| && forall x :: x in order ==> x in counts
    ensures forall x :: x in order[..k + 1] ==> x in counts
    ensures Totals(order[..k + 1], counts) == Totals(order[..k], counts) +
      (if order[k] != "Registro90" then TotalPart(order[k], counts[order[k]]) else "")
  {
    assert order[..k + 1][..k] == order[..k];
  }

  /** The number of keys that get a part. */
  function CountedKeys(order: seq<string>): nat {
    if order == [] then 0
    else CountedKeys(order[..|order| - 1]) + (if order[|order| - 1] != "Registro90" then 1 else 0)
  }

  predicate IsClassName(k: string) {
    exists t: RecordType :: ClassName(t) == k
  }

  /** A part of a class name is its type code and the count in eight or more
      digits: it starts and ends with a digit, and it has 10 or 11
      characters when the count is below 10^8. */
  lemma TotalPartShape(t: RecordType, count: nat)
    ensures var s := TotalPart(ClassName(t), count);
      && |s| >= 10 && IsDigit(s[0]) && IsDigit(s[|s| - 1])
      && (count < Pow10(8) ==> |s| <= 11)
  {
    TypeCodeOfName(t);
    ZeroPadLength(count, 8);
    ZeroPadValue(count, 8);
    var c := Code(t);
    var z := ZeroPad(count, 8);
    assert IsDigit(c[0]);
    assert TotalPart(ClassName(t), count) == c + z;
    assert IsDigit(z[|z| - 1]);
  }

  /** Every part has at least 10 characters, and at most 11 when every count
      is below 10^8; and the text neither starts nor ends with whitespace. */
  lemma {:induction false} TotalsBounds(order: seq<string>, counts: map<string, nat>)
    requires forall k :: k in order ==> k in counts && IsClassName(k)
    ensures |Totals(order, counts)| >= 10 * CountedKeys(order)
    ensures (forall k :: k in counts ==> counts[k] < Pow10(8)) ==>
      |Totals(order, counts)| <= 11 * CountedKeys(order)
    ensures IsStripped(Totals(order, counts))
  {
    if order != [] {
      var p := order[..|order| - 1];
      var k := order[|order| - 1];
      assert forall x :: x in p ==> x in order;
      TotalsBounds(p, counts);
      var a := Totals(p, counts);
      var n := CountedKeys(p);
      if k != "Registro90" {
        assert k in order;
        var t :| ClassName(t) == k;
        var b := TotalPart(k, counts[k]);
        TotalPartShape(t, counts[k]);
        assert Totals(order, counts) == a + b;
        assert CountedKeys(order) == n + 1;
        ConcatStripped(a, b);
      } else {
        assert Totals(order, counts) == a;
        assert CountedKeys(order) == n;
      }
    }
  }

  /** A stripped text followed by a text with no whitespace at its ends. */
  lemma ConcatStripped(a: string, b: string)
    requires IsStripped(a) && b != []
    requires IsDigit(b[0]) && IsDigit(b[|b| - 1])
    ensures IsStripped(a + b)
  {
    if a != [] { assert (a + b)[0] == a[0]; } else { assert a + b == b; }
    assert (a + b)[|a + b| - 1] == b[|b| - 1];
  }

  /** Every key in the key order has a count. */
  lemma FirstSeenCounted(rs: seq<Record>)
    ensures forall k :: k in FirstSeen(rs) ==> k in Counts(rs)
  {
    FirstSeenKeys(rs);
    forall k | k in FirstSeen(rs)
      ensures k in Counts(rs)
    {
      CountsOccurrences(rs, k);
    }
  }

  /** Every key of the counts is a class name. */
  lemma FirstSeenClassNames(rs: seq<Record>)
    ensures forall k :: k in FirstSeen(rs) ==> k in Counts(rs) && IsClassName(k)
  {
    FirstSeenKeys(rs);
    FirstSeenCounted(rs);
    forall k | k in FirstSeen(rs)
      ensures IsClassName(k)
    {
      var i :| 0 <= i < |Names(rs)| && Names(rs)[i] == k;
      assert ClassName(TypeOf(rs[i])) == k;
    }
  }

  // ---------------------------------------------------------------------
  // generate_output

  /** Why `generate_output` raises. */
  datatype OutputError =
    | NoRecords
    | BadRecordLine(index: nat)
    | MissingHeader
    | TrailerRejected(field: string)
    | BadTrailerLine

  datatype Outcome = Written(text: string) | Failed(error: OutputError)

  /** `sep.join(ls)` */
  function Join(sep: string, ls: seq<string>): (j: string)
    ensures ls == [] ==> j == ""
    ensures ls != [] ==> |j| >= |ls[0]| && j[..|ls[0]|] == ls[0]
    ensures ls != [] ==> |j| >= |ls[|ls| - 1]| && j[|j| - |ls[|ls| - 1]|..] == ls[|ls| - 1]
  {
    if ls == [] then ""
    else if |ls| == 1 then ls[0]
    else
      var p := Join(sep, ls[..|ls| - 1]);
      assert (p + sep + ls[|ls| - 1])[..|ls[0]|] == p[..|ls[0]|];
      p + sep + ls[|ls| - 1]
  }

  /** The totalization text of the records: the parts in key order. */
  function TotalsOf(rs: seq<Record>): string {
    FirstSeenCounted(rs);
    Totals(FirstSeen(rs), Counts(rs))
  }

  /** The closing type 90 record built from the header and the counts. */
  function Trailer(h: Registro10, totals: string): (r: Result<Registro90>)
    ensures r.Ok? ==> Valid90(r.value) && r.value.numero == 1
    ensures r.Ok? ==> r.value.cnpj == Strip(h.cnpjMf) && r.value.ie == Strip(h.ie)
  {
    Make90(h.cnpjMf, h.ie, LJust(totals, 95, ' '), 1)
  }

  /** `generate_output()`: no records, a record without a line, no type 10
      record, a rejected type 90 record and a type 90 record without a line
      raise, in that order; otherwise the record lines and the type 90 line,
      each followed by CR LF. */
  function FileOutput(rs: seq<Record>): (o: Outcome)
    ensures o == Failed(NoRecords) <==> rs == []
    ensures o.Written? ==> HeaderOf(rs).Some? && Rec10(HeaderOf(rs).value) in rs
    ensures o.Written? ==> |o.text| >= 2 && o.text[|o.text| - 2..] == "\r\n"
  {
    if rs == [] then Failed(NoRecords)
    else
      match EncodeAll(rs, EncodeRecord)
      case BadRecord(i) => Failed(BadRecordLine(i))
      case Lines(ls) =>
        match HeaderOf(rs)
        case None => Failed(MissingHeader)
        case Some(h) =>
          match Trailer(h, TotalsOf(rs))
          case Err(f) => Failed(TrailerRejected(f))
          case Ok(t) =>
            match Encode90(t)
            case None => Failed(BadTrailerLine)
            case Some(l) => Written(Join("\r\n", ls + [l]) + "\r\n")
  }

  /** With a valid type 10 header the type 90 record is refused exactly when
      the totalization text is longer than the 95 characters of its field,
      and otherwise it carries the header's CNPJ and registration, the text
      and the number 1, and it has a line. */
  lemma TrailerFor(h: Registro10, totals: string)
    requires Valid10(h) && IsStripped(totals)
    ensures Trailer(h, totals).Err? <==> |totals| > 95
    ensures Trailer(h, totals).Err? ==> Trailer(h, totals).field == "totalizacoes"
    ensures Trailer(h, totals).Ok? ==>
      && Trailer(h, totals).value == Registro90(h.cnpjMf, h.ie, totals, 1)
      && Encode90(Trailer(h, totals).value).Some?
  {
    DigitsStrippedText(h.cnpjMf);
    StripStripped(h.ie);
    if |totals| < 95 {
      StripPadded(totals, 95 - |totals|);
    } else {
      assert LJust(totals, 95, ' ') == totals;
      StripStripped(totals);
    }
    assert PyInt(h.cnpjMf).Some?;
  }

  /** The type 90 line closing the file: its columns are the header's CNPJ,
      the header's registration, the totalization text and the number 1. */
  lemma TrailerLayout(h: Registro10, totals: string)
    requires Valid10(h) && IsStripped(totals) && |totals| <= 95
    ensures var l := Encode90(Registro90(h.cnpjMf, h.ie, totals, 1));
      && l.Some? && |l.value| == 126 && l.value[..2] == "90"
      && l.value[2..16] == h.cnpjMf && Strip(l.value[16..30]) == h.ie
      && Strip(l.value[30..125]) == totals && l.value[125..] == "1"
  {
    var r := Registro90(h.cnpjMf, h.ie, totals, 1);
    assert Valid90(r);
    Layout90(r);
  }

  /** Whether `generate_output` succeeds, once every record has a line and
      a valid type 10 record is present: exactly when the totalization text
      fits its 95 characters. */
  lemma OutputWritten(rs: seq<Record>)
    requires EncodeAll(rs, EncodeRecord).Lines? && HeaderOf(rs).Some? && Valid10(HeaderOf(rs).value)
    ensures FileOutput(rs).Written? <==> |TotalsOf(rs)| <= 95
    ensures FileOutput(rs).Failed? ==> FileOutput(rs).error == TrailerRejected("totalizacoes")
  {
    FirstSeenClassNames(rs);
    TotalsBounds(FirstSeen(rs), Counts(rs));
    TrailerFor(HeaderOf(rs).value, TotalsOf(rs));
    HeaderOfFirst(rs);
  }

  /** Ten or more classes other than type 90 make the file impossible to
      close; nine or fewer always fit while every count is below 10^8, since
      at most four of them have a three-character code. */
  lemma TotalsCapacity(rs: seq<Record>)
    ensures CountedKeys(FirstSeen(rs)) >= 10 ==> |TotalsOf(rs)| > 95
    ensures CountedKeys(FirstSeen(rs)) <= 9 && (forall k :: k in Counts(rs) ==> Counts(rs)[k] < Pow10(8))
      ==> |TotalsOf(rs)| <= 95
  {
    var order := FirstSeen(rs);
    FirstSeenClassNames(rs);
    FirstSeenKeys(rs);
    TotalsBounds(order, Counts(rs));
    if CountedKeys(order) <= 9 && (forall k :: k in Counts(rs) ==> Counts(rs)[k] < Pow10(8)) {
      TotalsLength(order, Counts(rs));
      LongKeysDistinct(order);
    }
  }

  /** The class names whose type code has three characters. */
  const LongNames: set<string> := {"Registro60M", "Registro60A", "Registro60I", "Registro61R"}

  /** The number of keys of a three-character code (an 11-character class
      name), whose parts take 11 characters rather than 10. */
  function LongKeys(order: seq<string>): nat {
    if order == [] then 0
    else LongKeys(order[..|order| - 1]) + (if |order[|order| - 1]| == 11 then 1 else 0)
  }

  /** A part takes as many characters as the class name: the code and
      eight digits in place of "Registro". */
  lemma PartLength(t: RecordType, count: nat)
    requires count < Pow10(8)
    ensures |TotalPart(ClassName(t), count)| == |ClassName(t)|
  {
    TypeCodeOfName(t);
    ZeroPadLength(count, 8);
  }

  /** A class name has 10 characters, or 11 for the four long names. */
  lemma LongCode(t: RecordType)
    ensures |ClassName(t)| == 10 || |ClassName(t)| == 11
    ensures |ClassName(t)| == 11 ==> ClassName(t) in LongNames
  {
    match t
    case T60M => assert ClassName(t) == "Registro60M";
    case T60A => assert ClassName(t) == "Registro60A";
    case T60I => assert ClassName(t) == "Registro60I";
    case T61R => assert ClassName(t) == "Registro61R";
    case _ => assert |Code(t)| == 2;
  }

  /** With every count below 10^8 the totals take exactly 10 characters per
      counted key, and one more per key of a three-character code. */
  lemma {:induction false} TotalsLength(order: seq<string>, counts: map<string, nat>)
    requires forall k :: k in order ==> k in counts && IsClassName(k)
    requires forall k :: k in counts ==> counts[k] < Pow10(8)
    ensures |Totals(order, counts)| == 10 * CountedKeys(order) + LongKeys(order)
  {
    if order != [] {
      var p := order[..|order| - 1];
      var k := order[|order| - 1];
      assert forall x :: x in p ==> x in order;
      TotalsLength(p, counts);
      assert k in order;
      var t :| ClassName(t) == k;
      LongCode(t);
      var a := Totals(p, counts);
      if k != "Registro90" {
        PartLength(t, counts[k]);
        assert Totals(order, counts) == a + TotalPart(k, counts[k]);
      } else {
        assert Totals(order, counts) == a;
      }
    }
  }

  /** The long names among the keys. */
  function LongSet(order: seq<string>): set<string> {
    set k | k in order && |k| == 11
  }

  /** Distinct keys count each long name once; keys that are class names
      hold no more than the four long names. */
  lemma {:induction false} LongKeysDistinct(order: seq<string>)
    requires forall i, j :: 0 <= i < j < |order| ==> order[i] != order[j]
    requires forall k :: k in order ==> IsClassName(k)
    ensures LongKeys(order) == |LongSet(order)| <= 4
  {
    LongKeysCount(order);
    forall k | k in LongSet(order)
      ensures k in LongNames
    {
      var t :| ClassName(t) == k;
      LongCode(t);
    }
    SubsetCard(LongSet(order), LongNames);
  }

  /** Distinct keys count each long name once. */
  lemma {:induction false} LongKeysCount(order: seq<string>)
    requires forall i, j :: 0 <= i < j < |order| ==> order[i] != order[j]
    ensures LongKeys(order) == |LongSet(order)|
  {
    if order != [] {
      var p := order[..|order| - 1];
      var k := order[|order| - 1];
      LongKeysCount(p);
      assert k !in LongSet(p);
      LongSetStep(order);
    }
  }

  /** One more key adds itself to the long names when it is one. */
  lemma LongSetStep(order: seq<string>)
    requires order != []
    ensures var k := order[|order| - 1];
      LongSet(order) == LongSet(order[..|order| - 1]) + (if |k| == 11 then {k} else {})
  {
    assert order == order[..|order| - 1] + [order[|order| - 1]];
  }

  /** A subset is no larger than its superset. */
  lemma SubsetCard(a: set<string>, b: set<string>)
    requires a <= b
    ensures |a| <= |b|
    decreases a
  {
    if a != {} {
      var x :| x in a;
      SubsetCard(a - {x}, b - {x});
    }
  }
}
