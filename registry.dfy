/** The record classes as one type: the union the processor's record list
    holds, each record's class name (the key of the type counts), the type
    code the name stands for, and `to_sintegra_line` dispatched on the
    class. */
module Registry {
  import opened Text
  import opened Fields
  import opened HeaderRecords
  import opened InvoiceRecords
  import opened CouponRecords
  import opened TransportRecords
  import opened InventoryRecords
  import opened ExportRecords

  /** The record classes of the layout. */
  datatype RecordType =
    | T10 | T11 | T50 | T51 | T53 | T54 | T55 | T60M | T60A | T60I | T61 | T61R
    | T70 | T71 | T74 | T75 | T76 | T85 | T86 | T90

  /** The type code a class stands for: the first characters of its line. */
  function Code(t: RecordType): string {
    match t
    case T10 => "10"
    case T11 => "11"
    case T50 => "50"
    case T51 => "51"
    case T53 => "53"
    case T54 => "54"
    case T55 => "55"
    case T60M => "60M"
    case T60A => "60A"
    case T60I => "60I"
    case T61 => "61"
    case T61R => "61R"
    case T70 => "70"
    case T71 => "71"
    case T74 => "74"
    case T75 => "75"
    case T76 => "76"
    case T85 => "85"
    case T86 => "86"
    case T90 => "90"
  }

  /** `__class__.__name__` of a record of the class. */
  function ClassName(t: RecordType): string {
    "Registro" + Code(t)
  }

  /** A record of any class. */
  datatype Record =
    | Rec10(r10: Registro10)
    | Rec11(r11: Registro11)
    | Rec50(r50: Registro50)
    | Rec51(r51: Registro51)
    | Rec53(r53: Registro53)
    | Rec54(r54: Registro54)
    | Rec55(r55: Registro55)
    | Rec60M(r60m: Registro60M)
    | Rec60A(r60a: Registro60A)
    | Rec60I(r60i: Registro60I)
    | Rec61(r61: Registro61)
    | Rec61R(r61r: Registro61R)
    | Rec70(r70: Registro70)
    | Rec71(r71: Registro71)
    | Rec74(r74: Registro74)
    | Rec75(r75: Registro75)
    | Rec76(r76: Registro76)
    | Rec85(r85: Registro85)
    | Rec86(r86: Registro86)
    | Rec90(r90: Registro90)

  function TypeOf(rec: Record): RecordType {
    match rec
    case Rec10(_) => T10
    case Rec11(_) => T11
    case Rec50(_) => T50
    case Rec51(_) => T51
    case Rec53(_) => T53
    case Rec54(_) => T54
    case Rec55(_) => T55
    case Rec60M(_) => T60M
    case Rec60A(_) => T60A
    case Rec60I(_) => T60I
    case Rec61(_) => T61
    case Rec61R(_) => T61R
    case Rec70(_) => T70
    case Rec71(_) => T71
    case Rec74(_) => T74
    case Rec75(_) => T75
    case Rec76(_) => T76
    case Rec85(_) => T85
    case Rec86(_) => T86
    case Rec90(_) => T90
  }

  /** The key a record is counted under. */
  function NameOf(rec: Record): string {
    ClassName(TypeOf(rec))
  }

  /** `record.to_sintegra_line()`, None where it raises: only a type 90
      record whose CNPJ `int()` rejects has no line. */
  function EncodeRecord(rec: Record): (line: Option<string>)
    ensures line.None? <==> rec.Rec90? && PyInt(rec.r90.cnpj).None?
  {
    match rec
    case Rec10(r) => Some(Encode10(r))
    case Rec11(r) => Some(Encode11(r))
    case Rec50(r) => Some(Encode50(r))
    case Rec51(r) => Some(Encode51(r))
    case Rec53(r) => Some(Encode53(r))
    case Rec54(r) => Some(Encode54(r))
    case Rec55(r) => Some(Encode55(r))
    case Rec60M(r) => Some(Encode60M(r))
    case Rec60A(r) => Some(Encode60A(r))
    case Rec60I(r) => Some(Encode60I(r))
    case Rec61(r) => Some(Encode61(r))
    case Rec61R(r) => Some(Encode61R(r))
    case Rec70(r) => Some(Encode70(r))
    case Rec71(r) => Some(Encode71(r))
    case Rec74(r) => Some(Encode74(r))
    case Rec75(r) => Some(Encode75(r))
    case Rec76(r) => Some(Encode76(r))
    case Rec85(r) => Some(Encode85(r))
    case Rec86(r) => Some(Encode86(r))
    case Rec90(r) => Encode90(r)
  }

  // ---------------------------------------------------------------------
  // record_type.replace("Registro", "")

  /** `s.replace(pat, "")`: every occurrence of pat, scanning from the left
      and never overlapping, removed. */
  function RemoveAll(s: string, pat: string): (r: string)
    requires pat != []
    ensures |r| <= |s|
    decreases |s|
  {
    if |s| < |pat| then s
    else if s[..|pat|] == pat then RemoveAll(s[|pat|..], pat)
    else [s[0]] + RemoveAll(s[1..], pat)
  }

  /** The prefix a class name carries is removed, leaving the type code. */
  lemma TypeCodeOfName(t: RecordType)
    ensures RemoveAll(ClassName(t), "Registro") == Code(t)
  {
    var n := ClassName(t);
    assert n[..8] == "Registro";
    assert n[8..] == Code(t);
    assert |Code(t)| < 8;
  }
}
