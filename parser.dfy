/** Reading a file back: `parse_from_file` over the text of the file, the
    dispatch of `_parse_line` on the first two characters of each line, the
    subtype handlers of types 60 and 61, and `_parse_generic_registry`,
    which builds a record only for types 10 and 75. Every exception the
    reading raises is caught and the line is dropped, so a reader here gives
    an `Option`: None for a line that adds no record. */
module Parser {
  import opened Text
  import opened Fields
  import opened Scan
  import opened HeaderRecords
  import opened InventoryRecords
  import opened Registry

  /** What `registry_map` holds under a code: a record class, or one of the
      two bound methods that look at the subtype character. */
  datatype Handler = ClassHandler(t: RecordType) | Subtypes60 | Subtypes61

  /** `registry_map[code]` of `parse_from_file`, None where the code is not
      a key. */
  function RegistryMap(code: string): (h: Option<Handler>)
    ensures h.Some? && h.value.ClassHandler? ==> Code(h.value.t) == code
  {
    if |code| != 2 then None
    else
      match (code[0], code[1])
      case ('1', '0') => Some(ClassHandler(T10))
      case ('1', '1') => Some(ClassHandler(T11))
      case ('5', '0') => Some(ClassHandler(T50))
      case ('5', '1') => Some(ClassHandler(T51))
      case ('5', '3') => Some(ClassHandler(T53))
      case ('5', '4') => Some(ClassHandler(T54))
      case ('5', '5') => Some(ClassHandler(T55))
      case ('6', '0') => Some(Subtypes60)
      case ('6', '1') => Some(Subtypes61)
      case ('7', '0') => Some(ClassHandler(T70))
      case ('7', '1') => Some(ClassHandler(T71))
      case ('7', '4') => Some(ClassHandler(T74))
      case ('7', '5') => Some(ClassHandler(T75))
      case ('7', '6') => Some(ClassHandler(T76))
      case ('8', '5') => Some(ClassHandler(T85))
      case ('8', '6') => Some(ClassHandler(T86))
      case ('9', '0') => Some(ClassHandler(T90))
      case _ => None
  }

  /** Every class is reached from its code: a class with a two-character
      code other than 61 is registered under it; the subtypes of 60 and
      type 61 with its subtype 61R go through the handler registered under
      their first two characters, and no three-character code is a key. */
  lemma RegistryMapCodes(t: RecordType)
    ensures |Code(t)| == 2 && t != T61 ==> RegistryMap(Code(t)) == Some(ClassHandler(t))
    ensures |Code(t)| == 3 ==> RegistryMap(Code(t)) == None
    ensures t == T60M || t == T60A || t == T60I ==> RegistryMap(Code(t)[..2]) == Some(Subtypes60)
    ensures t == T61 || t == T61R ==> RegistryMap(Code(t)[..2]) == Some(Subtypes61)
  {
    match t
    case T60M => assert Code(t)[..2] == "60";
    case T60A => assert Code(t)[..2] == "60";
    case T60I => assert Code(t)[..2] == "60";
    case T61 => assert Code(t)[..2] == "61";
    case T61R => assert Code(t)[..2] == "61";
    case _ =>
  }

  /** A constructor call that raises gives no record. */
  function Built<T>(res: Result<T>): (r: Option<T>)
    ensures r.Some? <==> res.Ok?
    ensures r.Some? ==> r.value == res.value
  {
    if res.Ok? then Some(res.value) else None
  }

  /** The records `_parse_generic_registry` can produce: a valid record of
      type 10 or of type 75. */
  predicate Readable(rec: Record) {
    || (rec.Rec10? && Valid10(rec.r10))
    || (rec.Rec75? && Valid75(rec.r75))
  }

  /** The type 10 branch of `_parse_generic_registry`: the columns of the
      line as `Registro10` arguments, the CNPJ and the one-character codes
      unstripped, the two dates read by `_parse_date`. */
  function Parse10(line: string): (r: Option<Registro10>)
    ensures r.Some? ==> Valid10(r.value)
  {
    match (ParseDate(Slice(line, 107, 115)), ParseDate(Slice(line, 115, 123)))
    case (Some(di), Some(df)) =>
      Built(Make10(Slice(line, 2, 16), Strip(Slice(line, 16, 30)), Strip(Slice(line, 30, 65)),
        Strip(Slice(line, 65, 95)), Slice(line, 95, 97), Strip(Slice(line, 97, 107)), di, df,
        Slice(line, 123, 124), Slice(line, 124, 125), Slice(line, 125, 126)))
    case _ => None
  }

  /** The type 75 branch of `_parse_generic_registry`: the rates and the
      base read by `_parse_decimal` with two places. */
  function Parse75(line: string): (r: Option<Registro75>)
    ensures r.Some? ==> Valid75(r.value)
  {
    match (ParseDate(Slice(line, 2, 10)), ParseDate(Slice(line, 10, 18)))
    case (Some(di), Some(df)) =>
      (match (ParseDecimal(Slice(line, 99, 104), 2), ParseDecimal(Slice(line, 104, 108), 2),
             ParseDecimal(Slice(line, 108, 113), 2), ParseDecimal(Slice(line, 113, 126), 2))
      case (Some(ipi), Some(icms), Some(red), Some(bcSt)) =>
        Built(Make75(di, df, Strip(Slice(line, 18, 32)), Slice(line, 32, 40),
          Strip(Slice(line, 40, 93)), Strip(Slice(line, 93, 99)), ipi, icms, red, bcSt))
      case _ => None)
    case _ => None
  }

  /** `_parse_generic_registry(line, cls)`: a record for types 10 and 75;
      every other class is only announced, and adds nothing. */
  function ParseGeneric(line: string, t: RecordType): (r: Option<Record>)
    ensures r.Some? ==> Readable(r.value)
    ensures r.Some? ==> (t == T10 && r.value.Rec10?) || (t == T75 && r.value.Rec75?)
    ensures t != T10 && t != T75 ==> r.None?
  {
    if t == T10 then Read10(line)
    else if t == T75 then Read75(line)
    else None
  }

  /** The type 10 branch of `_parse_generic_registry`, as a union record. */
  function Read10(line: string): (r: Option<Record>)
    ensures r.Some? ==> r.value.Rec10? && Valid10(r.value.r10)
  {
    match Parse10(line) case Some(x) => Some(Rec10(x)) case None => None
  }

  /** The type 75 branch of `_parse_generic_registry`, as a union record. */
  function Read75(line: string): (r: Option<Record>)
    ensures r.Some? ==> r.value.Rec75? && Valid75(r.value.r75)
  {
    match Parse75(line) case Some(x) => Some(Rec75(x)) case None => None
  }

  /** `_parse_registro_60`: the third character picks 60M, 60A or 60I;
      anything else, or a line of two characters, is only warned about. */
  function ParseRegistro60(line: string): (r: Option<Record>)
    ensures r.None?
  {
    if |line| > 2 then
      if line[2] == 'M' then ParseGeneric(line, T60M)
      else if line[2] == 'A' then ParseGeneric(line, T60A)
      else if line[2] == 'I' then ParseGeneric(line, T60I)
      else None
    else None
  }

  /** `_parse_registro_61`: the third character 'R' picks 61R, any other
      picks 61. */
  function ParseRegistro61(line: string): (r: Option<Record>)
    ensures r.None?
  {
    if |line| > 2 then
      if line[2] == 'R' then ParseGeneric(line, T61R) else ParseGeneric(line, T61)
    else None
  }

  /** `_parse_line(line, code, registry_map)`: the handler registered under
      the code; an unknown code, a handler that only warns and a handler that
      raises all add nothing. */
  function ParseLine(line: string, code: string): (r: Option<Record>)
    ensures r.Some? ==> Readable(r.value)
    ensures r.Some? ==> (code == "10" && r.value.Rec10?) || (code == "75" && r.value.Rec75?)
  {
    match RegistryMap(code)
    case None => None
    case Some(ClassHandler(t)) =>
      assert Code(T10) == "10" && Code(T75) == "75";
      ParseGeneric(line, t)
    case Some(Subtypes60) => ParseRegistro60(line)
    case Some(Subtypes61) => ParseRegistro61(line)
  }

  /** One step of the loop of `parse_from_file`: a trailing carriage return
      removed, a line shorter than two characters skipped, the first two
      characters as the code. */
  function LineRecord(raw: string): (r: Option<Record>)
    ensures r.Some? ==> Readable(r.value)
    ensures r.Some? ==> |raw| >= 2 && raw[..2] == (if r.value.Rec10? then "10" else "75")
  {
    var l := RStripChar(raw, '\r');
    if |l| < 2 then None else ParseLine(l, l[..2])
  }

  /** `content.strip().split("\n")`: the lines `parse_from_file` reads. */
  function ContentLines(content: string): (lines: seq<string>)
    ensures |lines| >= 1
    ensures forall i :: 0 <= i < |lines| ==> '\n' !in lines[i]
  {
    Split(Strip(content), '\n')
  }

  function Found(o: Option<Record>): seq<Record> {
    if o.Some? then [o.value] else []
  }

  /** The records the loop of `parse_from_file` adds, in the order of the
      lines. */
  function ParsedRecords(lines: seq<string>): (rs: seq<Record>)
    ensures |rs| <= |lines|
    ensures forall i :: 0 <= i < |rs| ==> Readable(rs[i])
  {
    if lines == [] then []
    else ParsedRecords(lines[..|lines| - 1]) + Found(LineRecord(lines[|lines| - 1]))
  }

  /** One more line adds its record, if it has one. */
  lemma ParsedStep(lines: seq<string>, i: nat)
    requires i < |lines|
    ensures ParsedRecords(lines[..i + 1]) == ParsedRecords(lines[..i]) + Found(LineRecord(lines[i]))
  {
    assert lines[..i + 1][..i] == lines[..i];
  }

  // ---------------------------------------------------------------------
  // Lines written by `to_sintegra_line`, read back

  /** The columns a type 10 line must hold for the record to be read back. */
  lemma Parse10Columns(line: string, r: Registro10)
    requires Valid10(r) && |line| == 126
    requires line[2..16] == r.cnpjMf && Strip(line[16..30]) == r.ie
    requires Strip(line[30..65]) == r.nomeContribuinte && Strip(line[65..95]) == r.municipio
    requires line[95..97] == r.unidadeFederacao && Strip(line[97..107]) == r.fax
    requires ParseDate(line[107..115]) == Some(r.dataInicial)
    requires ParseDate(line[115..123]) == Some(r.dataFinal)
    requires line[123..124] == r.codIdEstrutura && line[124..125] == r.codIdNatureza
    requires line[125..] == r.codIdFinalidade
    ensures Parse10(line) == Some(r)
  {
    assert Slice(line, 125, 126) == line[125..];
    assert Make10(Slice(line, 2, 16), Strip(Slice(line, 16, 30)), Strip(Slice(line, 30, 65)),
      Strip(Slice(line, 65, 95)), Slice(line, 95, 97), Strip(Slice(line, 97, 107)),
      r.dataInicial, r.dataFinal, Slice(line, 123, 124), Slice(line, 124, 125),
      Slice(line, 125, 126)) == Ok(r);
  }

  /** A valid type 10 record is read back from its own line unchanged. */
  lemma Parse10Line(r: Registro10)
    requires Valid10(r)
    ensures Parse10(Encode10(r)) == Some(r)
  {
    Layout10(r);
    Parse10Columns(Encode10(r), r);
  }

  /** The type 75 record as its line reads back: each rate and the base
      rounded at the two places `_format_numeric` writes. */
  function Rounded75(r: Registro75): Registro75 {
    r.(valorIpi := Dec(WrittenValue(r.valorIpi, 2), 2),
       valorIcms := Dec(WrittenValue(r.valorIcms, 2), 2),
       redBcIcms := Dec(WrittenValue(r.redBcIcms, 2), 2),
       valorBcSt := Dec(WrittenValue(r.valorBcSt, 2), 2))
  }

  /** A column of digits read with places p > 0. */
  lemma DenotedColumnBack(col: string, n: nat, p: nat)
    requires DigitsDenote(col, n) && |col| > 0 && p > 0
    ensures ParseDecimal(col, p) == Some(Dec(n, p))
  {
    ParseDecimalDigits(col, p);
  }

  /** Rounding keeps a valid type 75 record valid: each rate still at most
      100, the base still not negative. */
  lemma Rounded75Valid(r: Registro75)
    requires Valid75(r)
    ensures Valid75(Rounded75(r))
  {
    WrittenAtMost(r.valorIpi, 100, 2);
    WrittenAtMost(r.valorIcms, 100, 2);
    WrittenAtMost(r.redBcIcms, 100, 2);
  }

  /** The columns a type 75 line must hold for a record to be read back. */
  lemma Parse75Columns(line: string, b: Registro75)
    requires Valid75(b) && |line| == 126
    requires ParseDate(Slice(line, 2, 10)) == Some(b.dataInicial)
    requires ParseDate(Slice(line, 10, 18)) == Some(b.dataFinal)
    requires Strip(Slice(line, 18, 32)) == b.codigo && Slice(line, 32, 40) == b.ncm
    requires Strip(Slice(line, 40, 93)) == b.descricao && Strip(Slice(line, 93, 99)) == b.unCom
    requires ParseDecimal(Slice(line, 99, 104), 2) == Some(b.valorIpi)
    requires ParseDecimal(Slice(line, 104, 108), 2) == Some(b.valorIcms)
    requires ParseDecimal(Slice(line, 108, 113), 2) == Some(b.redBcIcms)
    requires ParseDecimal(Slice(line, 113, 126), 2) == Some(b.valorBcSt)
    ensures Parse75(line) == Some(b)
  {
  }

  /** A column of digits denoting n, read with two places: n hundredths. */
  lemma ColumnDecimal(line: string, i: nat, j: nat, n: nat)
    requires i < j <= |line| && DigitsDenote(line[i..j], n)
    ensures ParseDecimal(Slice(line, i, j), 2) == Some(Dec(n, 2))
  {
    DenotedColumnBack(line[i..j], n, 2);
  }

  /** The four number columns of a type 75 line, read with two places. */
  lemma Amounts75Back(line: string, a: nat, b: nat, c: nat, d: nat)
    requires |line| == 126
    requires DigitsDenote(line[99..104], a) && DigitsDenote(line[104..108], b)
    requires DigitsDenote(line[108..113], c) && DigitsDenote(line[113..], d)
    ensures ParseDecimal(Slice(line, 99, 104), 2) == Some(Dec(a, 2))
    ensures ParseDecimal(Slice(line, 104, 108), 2) == Some(Dec(b, 2))
    ensures ParseDecimal(Slice(line, 108, 113), 2) == Some(Dec(c, 2))
    ensures ParseDecimal(Slice(line, 113, 126), 2) == Some(Dec(d, 2))
  {
    assert line[113..] == line[113..126];
    ColumnDecimal(line, 99, 104, a);
    ColumnDecimal(line, 104, 108, b);
    ColumnDecimal(line, 108, 113, c);
    ColumnDecimal(line, 113, 126, d);
  }

  /** A valid type 75 record whose numbers fit their columns is read back
      from its own line with its numbers rounded at two places. */
  lemma Parse75Line(r: Registro75)
    requires Valid75(r) && Fits75(r)
    ensures Parse75(Encode75(r)) == Some(Rounded75(r))
  {
    var line := Encode75(r);
    Layout75(r);
    Rounded75Valid(r);
    Amounts75Back(line, WrittenValue(r.valorIpi, 2), WrittenValue(r.valorIcms, 2),
      WrittenValue(r.redBcIcms, 2), WrittenValue(r.valorBcSt, 2));
    Parse75Columns(line, Rounded75(r));
  }

  /** Where a number has at most two places the rounding changes nothing:
      the record read back is equal, as `Decimal` compares, to the record
      written. */
  lemma Rounded75Value(r: Registro75)
    requires Valid75(r)
    requires r.valorIpi.scale <= 2 && r.valorIcms.scale <= 2
    requires r.redBcIcms.scale <= 2 && r.valorBcSt.scale <= 2
    ensures var b := Rounded75(r);
      && SameValue(b.valorIpi, r.valorIpi) && SameValue(b.valorIcms, r.valorIcms)
      && SameValue(b.redBcIcms, r.redBcIcms) && SameValue(b.valorBcSt, r.valorBcSt)
      && b.(valorIpi := r.valorIpi, valorIcms := r.valorIcms, redBcIcms := r.redBcIcms,
            valorBcSt := r.valorBcSt) == r
  {
    WrittenSameValue(r.valorIpi, 2);
    WrittenSameValue(r.valorIcms, 2);
    WrittenSameValue(r.redBcIcms, 2);
    WrittenSameValue(r.valorBcSt, 2);
  }

  /** A line that does not end in a carriage return is read under its
      first two characters. */
  lemma LineRecordOf(raw: string)
    requires |raw| >= 2 && raw[|raw| - 1] != '\r'
    ensures LineRecord(raw) == ParseLine(raw, raw[..2])
  {
  }

  /** A type 10 line the type 10 branch reads is what the loop adds. */
  lemma ReadLine10(line: string, r: Registro10)
    requires |line| >= 2 && line[..2] == "10" && line[|line| - 1] != '\r'
    requires Parse10(line) == Some(r)
    ensures LineRecord(line) == Some(Rec10(r))
  {
    LineRecordOf(line);
    RegistryMapCodes(T10);
  }

  /** A written type 10 line is read back as the record it was written
      from, by the same step the loop of `parse_from_file` takes. */
  lemma LineRecord10(r: Registro10)
    requires Valid10(r)
    ensures LineRecord(Encode10(r)) == Some(Rec10(r))
  {
    var line := Encode10(r);
    Layout10(r);
    assert line[125] != '\r';
    Parse10Line(r);
    ReadLine10(line, r);
  }

  /** A line starting with "75" goes to the type 75 branch. */
  lemma LineDispatch75(line: string)
    requires |line| >= 2 && line[..2] == "75" && line[|line| - 1] != '\r'
    ensures LineRecord(line) == Read75(line)
  {
    LineRecordOf(line);
    RegistryMapCodes(T75);
    assert line[..2] == Code(T75);
  }

  /** A type 75 line the type 75 branch reads is what the loop adds. */
  lemma ReadLine75(line: string, b: Registro75)
    requires |line| >= 2 && line[..2] == "75" && line[|line| - 1] != '\r'
    requires Parse75(line) == Some(b)
    ensures LineRecord(line) == Some(Rec75(b))
  {
    LineDispatch75(line);
  }

  /** A written type 75 line is read back with its numbers rounded. */
  lemma LineRecord75(r: Registro75)
    requires Valid75(r) && Fits75(r)
    ensures LineRecord(Encode75(r)) == Some(Rec75(Rounded75(r)))
  {
    var line := Encode75(r);
    Layout75(r);
    assert line[125] == line[113..][12];
    Parse75Line(r);
    ReadLine75(line, Rounded75(r));
  }
}
