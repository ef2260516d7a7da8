/** The records of retail sales: type 60 with its subtypes M (a fiscal
    printer's day), A (totals per rate) and I (coupon items), and type 61
    with its subtype R (documents issued without a fiscal printer). */
module CouponRecords {
  import opened Text
  import opened Fields
  import opened Scan

  // ---------------------------------------------------------------------
  // Registro 60M

  /** Type 60, subtype M: the master record of a fiscal printer's day. */
  datatype Registro60M = Registro60M(
    data: Date,
    serie: string,
    sequencia: int,
    modelo: string,
    cooInicio: int,
    cooFim: int,
    crz: int,
    cro: int,
    vendaBruta: Dec,
    totalizador: Dec)

  /** What constructing a `Registro60M` guarantees of its fields. */
  predicate Valid60M(r: Registro60M) {
    && TextOk(r.serie, 0, 20)
    && TextOk(r.modelo, 0, 2)
    && AmountOk(r.vendaBruta)
    && AmountOk(r.totalizador)
  }

  /** `Registro60M(...)`: the fields validated in declaration order, the first
      failing one named in the error. It succeeds exactly when the record of
      the stripped (state codes also upper-cased) values is valid, and holds
      that record; a valid record comes back unchanged. */
  function Make60M(data: Date, serie: string, sequencia: int, modelo: string, cooInicio: int,
                   cooFim: int, crz: int, cro: int, vendaBruta: Dec, totalizador: Dec)
    : (r: Result<Registro60M>)
    ensures r.Ok? ==> Valid60M(r.value)
    ensures var c := Registro60M(data, serie, sequencia, modelo, cooInicio, cooFim, crz, cro,
                vendaBruta, totalizador);
            Valid60M(c) ==> r == Ok(c)
    ensures var c := Registro60M(data, Strip(serie), sequencia, Strip(modelo), cooInicio, cooFim,
        crz, cro, vendaBruta, totalizador);
      (r.Ok? <==> Valid60M(c)) && (r.Ok? ==> r.value == c)
  {
    var serie' :- CheckText("serie", serie, 0, 20);
    var modelo' :- CheckText("modelo", modelo, 0, 2);
    var vendaBruta' :- CheckAmount("venda_bruta", vendaBruta);
    var totalizador' :- CheckAmount("totalizador", totalizador);
    Ok(Registro60M(data, serie', sequencia, modelo', cooInicio, cooFim, crz, cro, vendaBruta',
      totalizador'))
  }

  /** The numbers of a `Registro60M` fit their columns. */
  predicate Fits60M(r: Registro60M) {
    && IntFits(r.sequencia, 3)
    && IntFits(r.cooInicio, 6)
    && IntFits(r.cooFim, 6)
    && IntFits(r.crz, 6)
    && IntFits(r.cro, 3)
    && ScaledFits(r.vendaBruta, 0, 16)
    && ScaledFits(r.totalizador, 0, 16)
  }

  /** `Registro60M.to_sintegra_line`, an f-string: the type "60" and the
      subtype "M", then the fields; the two totals in whole units,
      truncated. */
  function Encode60M(r: Registro60M): (line: string)
    ensures |line| >= 3 && line[..3] == "60M" && line[..2] == "60"
  {
    var fields := FormatDate(r.data) + PadText(r.serie, 20) + FormatIntField(r.sequencia, 3) +
      PadText(r.modelo, 2) + FormatIntField(r.cooInicio, 6) + FormatIntField(r.cooFim, 6) +
      FormatIntField(r.crz, 6) + FormatIntField(r.cro, 3) + FormatScaled(r.vendaBruta, 0, 16) +
      FormatScaled(r.totalizador, 0, 16) + Spaces(37);
    Cut2("60M", fields);
    "60M" + fields
  }

  /** Where each piece of a type 60M line starts and ends. */
  lemma Cut60M(p1: string, p2: string, p3: string, p4: string, p5: string, p6: string, p7: string,
               p8: string, p9: string, p10: string, p11: string, p12: string)
    requires |p1| == 3 && |p2| == 8 && |p3| == 20 && |p4| == 3 && |p5| == 2 && |p6| == 6 &&
      |p7| == 6 && |p8| == 6 && |p9| == 3 && |p10| == 16 && |p11| == 16 && |p12| == 37
    ensures var l := p1 + (p2 + p3 + p4 + p5 + p6 + p7 + p8 + p9 + p10 + p11 + p12);
      && |l| == 126 && l[3..11] == p2 && l[11..31] == p3 && l[31..34] == p4 && l[34..36] == p5 &&
      l[36..42] == p6 && l[42..48] == p7 && l[48..54] == p8 && l[54..57] == p9 &&
      l[57..73] == p10 && l[73..89] == p11 && l[89..] == p12
  {
    var l := p1 + (p2 + p3 + p4 + p5 + p6 + p7 + p8 + p9 + p10 + p11 + p12);
    assert l[89..] == p12;
    assert l[73..89] == p11;
    assert l[57..73] == p10;
    assert l[54..57] == p9;
    assert l[48..54] == p8;
    assert l[42..48] == p7;
    assert l[36..42] == p6;
    assert l[34..36] == p5;
    assert l[31..34] == p4;
    assert l[11..31] == p3;
    assert l[3..11] == p2;
  }

  /** The columns of a type 60M line, read back: 126 characters in all. */
  lemma Layout60M(r: Registro60M)
    requires Valid60M(r) && Fits60M(r)
    ensures var line := Encode60M(r);
      && |line| == 126
      && ParseDate(line[3..11]) == Some(r.data)
      && Strip(line[11..31]) == r.serie
      && DigitsDenote(line[31..34], r.sequencia)
      && Strip(line[34..36]) == r.modelo
      && DigitsDenote(line[36..42], r.cooInicio)
      && DigitsDenote(line[42..48], r.cooFim)
      && DigitsDenote(line[48..54], r.crz)
      && DigitsDenote(line[54..57], r.cro)
      && DigitsDenote(line[57..73], TruncScaled(r.vendaBruta, 0))
      && DigitsDenote(line[73..89], TruncScaled(r.totalizador, 0))
      && line[89..] == Spaces(37)
  {
    Pow10Values();
    var line := Encode60M(r);
    Cut60M("60M", FormatDate(r.data), PadText(r.serie, 20), FormatIntField(r.sequencia, 3),
          PadText(r.modelo, 2), FormatIntField(r.cooInicio, 6), FormatIntField(r.cooFim, 6),
          FormatIntField(r.crz, 6), FormatIntField(r.cro, 3), FormatScaled(r.vendaBruta, 0, 16),
          FormatScaled(r.totalizador, 0, 16), Spaces(37));
    DateColumn(r.data, line[3..11]);
    PadTextBack(r.serie, 20, line[11..31]);
    IntColumn(r.sequencia, 3, line[31..34]);
    PadTextBack(r.modelo, 2, line[34..36]);
    IntColumn(r.cooInicio, 6, line[36..42]);
    IntColumn(r.cooFim, 6, line[42..48]);
    IntColumn(r.crz, 6, line[48..54]);
    IntColumn(r.cro, 3, line[54..57]);
    ScaledColumn(r.vendaBruta, 0, 16, line[57..73]);
    ScaledColumn(r.totalizador, 0, 16, line[73..89]);
  }

  // ---------------------------------------------------------------------
  // Registro 60A

  /** Type 60, subtype A: the day's total for one tax situation or rate. */
  datatype Registro60A = Registro60A(
    data: Date,
    serie: string,
    stAliquota: string,
    bcIcms: Dec)

  /** What constructing a `Registro60A` guarantees of its fields. */
  predicate Valid60A(r: Registro60A) {
    && TextOk(r.serie, 0, 20)
    && TextOk(r.stAliquota, 0, 4)
    && AmountOk(r.bcIcms)
  }

  /** `Registro60A(...)`: the fields validated in declaration order, the first
      failing one named in the error. It succeeds exactly when the record of
      the stripped (state codes also upper-cased) values is valid, and holds
      that record; a valid record comes back unchanged. */
  function Make60A(data: Date, serie: string, stAliquota: string, bcIcms: Dec)
    : (r: Result<Registro60A>)
    ensures r.Ok? ==> Valid60A(r.value)
    ensures var c := Registro60A(data, serie, stAliquota, bcIcms);
            Valid60A(c) ==> r == Ok(c)
    ensures var c := Registro60A(data, Strip(serie), Strip(stAliquota), bcIcms);
      (r.Ok? <==> Valid60A(c)) && (r.Ok? ==> r.value == c)
  {
    var serie' :- CheckText("serie", serie, 0, 20);
    var stAliquota' :- CheckText("st_aliquota", stAliquota, 0, 4);
    var bcIcms' :- CheckAmount("bc_icms", bcIcms);
    Ok(Registro60A(data, serie', stAliquota', bcIcms'))
  }

  /** The numbers of a `Registro60A` fit their columns. */
  predicate Fits60A(r: Registro60A) {
    && ScaledFits(r.bcIcms, 2, 12)
  }

  /** `Registro60A.to_sintegra_line`, an f-string: the type "60" and the
      subtype "A", then the fields. */
  function Encode60A(r: Registro60A): (line: string)
    ensures |line| >= 3 && line[..3] == "60A" && line[..2] == "60"
  {
    var fields := FormatDate(r.data) + PadText(r.serie, 20) + PadText(r.stAliquota, 4) +
      FormatScaled(r.bcIcms, 2, 12) + Spaces(79);
    Cut2("60A", fields);
    "60A" + fields
  }

  /** Where each piece of a type 60A line starts and ends. */
  lemma Cut60A(p1: string, p2: string, p3: string, p4: string, p5: string, p6: string)
    requires |p1| == 3 && |p2| == 8 && |p3| == 20 && |p4| == 4 && |p5| == 12 && |p6| == 79
    ensures var l := p1 + (p2 + p3 + p4 + p5 + p6);
      && |l| == 126 && l[3..11] == p2 && l[11..31] == p3 && l[31..35] == p4 && l[35..47] == p5 &&
      l[47..] == p6
  {
    var l := p1 + (p2 + p3 + p4 + p5 + p6);
    assert l[47..] == p6;
    assert l[35..47] == p5;
    assert l[31..35] == p4;
    assert l[11..31] == p3;
    assert l[3..11] == p2;
  }

  /** The columns of a type 60A line, read back: 126 characters in all. */
  lemma Layout60A(r: Registro60A)
    requires Valid60A(r) && Fits60A(r)
    ensures var line := Encode60A(r);
      && |line| == 126
      && ParseDate(line[3..11]) == Some(r.data)
      && Strip(line[11..31]) == r.serie
      && Strip(line[31..35]) == r.stAliquota
      && DigitsDenote(line[35..47], TruncScaled(r.bcIcms, 2))
      && line[47..] == Spaces(79)
  {
    Pow10Values();
    var line := Encode60A(r);
    Cut60A("60A", FormatDate(r.data), PadText(r.serie, 20), PadText(r.stAliquota, 4),
          FormatScaled(r.bcIcms, 2, 12), Spaces(79));
    DateColumn(r.data, line[3..11]);
    PadTextBack(r.serie, 20, line[11..31]);
    PadTextBack(r.stAliquota, 4, line[31..35]);
    ScaledColumn(r.bcIcms, 2, 12, line[35..47]);
  }

  // ---------------------------------------------------------------------
  // Registro 60I

  /** Type 60, subtype I: one item of a fiscal coupon. */
  datatype Registro60I = Registro60I(
    data: Date,
    modelo: string,
    coo: int,
    item: int,
    codigo: string,
    quantidade: Dec,
    valor: Dec,
    bcIcms: Dec,
    stAliquota: string,
    valorIcms: Dec)

  /** What constructing a `Registro60I` guarantees of its fields. */
  predicate Valid60I(r: Registro60I) {
    && TextOk(r.modelo, 0, 2)
    && TextOk(r.codigo, 0, 14)
    && AmountOk(r.quantidade)
    && AmountOk(r.valor)
    && AmountOk(r.bcIcms)
    && TextOk(r.stAliquota, 0, 4)
    && AmountOk(r.valorIcms)
  }

  /** `Registro60I(...)`: the fields validated in declaration order, the first
      failing one named in the error. It succeeds exactly when the record of
      the stripped (state codes also upper-cased) values is valid, and holds
      that record; a valid record comes back unchanged. */
  function Make60I(data: Date, modelo: string, coo: int, item: int, codigo: string,
                   quantidade: Dec, valor: Dec, bcIcms: Dec, stAliquota: string, valorIcms: Dec)
    : (r: Result<Registro60I>)
    ensures r.Ok? ==> Valid60I(r.value)
    ensures var c := Registro60I(data, modelo, coo, item, codigo, quantidade, valor, bcIcms,
                stAliquota, valorIcms);
            Valid60I(c) ==> r == Ok(c)
    ensures var c := Registro60I(data, Strip(modelo), coo, item, Strip(codigo), quantidade, valor,
        bcIcms, Strip(stAliquota), valorIcms);
      (r.Ok? <==> Valid60I(c)) && (r.Ok? ==> r.value == c)
  {
    var modelo' :- CheckText("modelo", modelo, 0, 2);
    var codigo' :- CheckText("codigo", codigo, 0, 14);
    var quantidade' :- CheckAmount("quantidade", quantidade);
    var valor' :- CheckAmount("valor", valor);
    var bcIcms' :- CheckAmount("bc_icms", bcIcms);
    var stAliquota' :- CheckText("st_aliquota", stAliquota, 0, 4);
    var valorIcms' :- CheckAmount("valor_icms", valorIcms);
    Ok(Registro60I(data, modelo', coo, item, codigo', quantidade', valor', bcIcms', stAliquota',
      valorIcms'))
  }

  /** The numbers of a `Registro60I` fit their columns. */
  predicate Fits60I(r: Registro60I) {
    && IntFits(r.coo, 6)
    && IntFits(r.item, 3)
    && ScaledFits(r.quantidade, 3, 13)
    && ScaledFits(r.valor, 3, 13)
    && ScaledFits(r.bcIcms, 2, 12)
    && ScaledFits(r.valorIcms, 2, 12)
  }

  /** `Registro60I.to_sintegra_line`, an f-string: the type "60" and the
      subtype "I", then the fields; the line has 106 characters. */
  function Encode60I(r: Registro60I): (line: string)
    ensures |line| >= 3 && line[..3] == "60I" && line[..2] == "60"
  {
    var fields := FormatDate(r.data) + PadText(r.modelo, 2) + FormatIntField(r.coo, 6) +
      FormatIntField(r.item, 3) + PadText(r.codigo, 14) + FormatScaled(r.quantidade, 3, 13) +
      FormatScaled(r.valor, 3, 13) + FormatScaled(r.bcIcms, 2, 12) + PadText(r.stAliquota, 4) +
      FormatScaled(r.valorIcms, 2, 12) + Spaces(16);
    Cut2("60I", fields);
    "60I" + fields
  }

  /** Where each piece of a type 60I line starts and ends. */
  lemma Cut60I(p1: string, p2: string, p3: string, p4: string, p5: string, p6: string, p7: string,
               p8: string, p9: string, p10: string, p11: string, p12: string)
    requires |p1| == 3 && |p2| == 8 && |p3| == 2 && |p4| == 6 && |p5| == 3 && |p6| == 14 &&
      |p7| == 13 && |p8| == 13 && |p9| == 12 && |p10| == 4 && |p11| == 12 && |p12| == 16
    ensures var l := p1 + (p2 + p3 + p4 + p5 + p6 + p7 + p8 + p9 + p10 + p11 + p12);
      && |l| == 106 && l[3..11] == p2 && l[11..13] == p3 && l[13..19] == p4 && l[19..22] == p5 &&
      l[22..36] == p6 && l[36..49] == p7 && l[49..62] == p8 && l[62..74] == p9 &&
      l[74..78] == p10 && l[78..90] == p11 && l[90..] == p12
  {
    var l := p1 + (p2 + p3 + p4 + p5 + p6 + p7 + p8 + p9 + p10 + p11 + p12);
    assert l[90..] == p12;
    assert l[78..90] == p11;
    assert l[74..78] == p10;
    assert l[62..74] == p9;
    assert l[49..62] == p8;
    assert l[36..49] == p7;
    assert l[22..36] == p6;
    assert l[19..22] == p5;
    assert l[13..19] == p4;
    assert l[11..13] == p3;
    assert l[3..11] == p2;
  }

  /** The columns of a type 60I line, read back: 106 characters in all. */
  lemma Layout60I(r: Registro60I)
    requires Valid60I(r) && Fits60I(r)
    ensures var line := Encode60I(r);
      && |line| == 106
      && ParseDate(line[3..11]) == Some(r.data)
      && Strip(line[11..13]) == r.modelo
      && DigitsDenote(line[13..19], r.coo)
      && DigitsDenote(line[19..22], r.item)
      && Strip(line[22..36]) == r.codigo
      && DigitsDenote(line[36..49], TruncScaled(r.quantidade, 3))
      && DigitsDenote(line[49..62], TruncScaled(r.valor, 3))
      && DigitsDenote(line[62..74], TruncScaled(r.bcIcms, 2))
      && Strip(line[74..78]) == r.stAliquota
      && DigitsDenote(line[78..90], TruncScaled(r.valorIcms, 2))
      && line[90..] == Spaces(16)
  {
    Pow10Values();
    var line := Encode60I(r);
    Cut60I("60I", FormatDate(r.data), PadText(r.modelo, 2), FormatIntField(r.coo, 6),
          FormatIntField(r.item, 3), PadText(r.codigo, 14), FormatScaled(r.quantidade, 3, 13),
          FormatScaled(r.valor, 3, 13), FormatScaled(r.bcIcms, 2, 12), PadText(r.stAliquota, 4),
          FormatScaled(r.valorIcms, 2, 12), Spaces(16));
    DateColumn(r.data, line[3..11]);
    PadTextBack(r.modelo, 2, line[11..13]);
    IntColumn(r.coo, 6, line[13..19]);
    IntColumn(r.item, 3, line[19..22]);
    PadTextBack(r.codigo, 14, line[22..36]);
    ScaledColumn(r.quantidade, 3, 13, line[36..49]);
    ScaledColumn(r.valor, 3, 13, line[49..62]);
    ScaledColumn(r.bcIcms, 2, 12, line[62..74]);
    PadTextBack(r.stAliquota, 4, line[74..78]);
    ScaledColumn(r.valorIcms, 2, 12, line[78..90]);
  }

  // ---------------------------------------------------------------------
  // Registro 61

  /** Type 61, the day's totals of documents issued without a fiscal
      printer. */
  datatype Registro61 = Registro61(
    data: Date,
    modelo: string,
    serie: string,
    subserie: string,
    cooInicio: int,
    cooFim: int,
    valorTotal: Dec,
    bcIcms: Dec,
    valorIcms: Dec,
    isenta: Dec,
    outras: Dec,
    aliquota: Dec)

  /** What constructing a `Registro61` guarantees of its fields. */
  predicate Valid61(r: Registro61) {
    && TextOk(r.modelo, 0, 2)
    && TextOk(r.serie, 0, 3)
    && TextOk(r.subserie, 0, 2)
    && AmountOk(r.valorTotal)
    && AmountOk(r.bcIcms)
    && AmountOk(r.valorIcms)
    && AmountOk(r.isenta)
    && AmountOk(r.outras)
    && AmountAtMost(r.aliquota, 100)
  }

  /** `Registro61(...)`: the fields validated in declaration order, the first
      failing one named in the error. It succeeds exactly when the record of
      the stripped (state codes also upper-cased) values is valid, and holds
      that record; a valid record comes back unchanged. */
  function Make61(data: Date, modelo: string, serie: string, subserie: string, cooInicio: int,
                  cooFim: int, valorTotal: Dec, bcIcms: Dec, valorIcms: Dec, isenta: Dec,
                  outras: Dec, aliquota: Dec)
    : (r: Result<Registro61>)
    ensures r.Ok? ==> Valid61(r.value)
    ensures var c := Registro61(data, modelo, serie, subserie, cooInicio, cooFim, valorTotal,
                bcIcms, valorIcms, isenta, outras, aliquota);
            Valid61(c) ==> r == Ok(c)
    ensures var c := Registro61(data, Strip(modelo), Strip(serie), Strip(subserie), cooInicio,
        cooFim, valorTotal, bcIcms, valorIcms, isenta, outras, aliquota);
      (r.Ok? <==> Valid61(c)) && (r.Ok? ==> r.value == c)
  {
    var modelo' :- CheckText("modelo", modelo, 0, 2);
    var serie' :- CheckText("serie", serie, 0, 3);
    var subserie' :- CheckText("subserie", subserie, 0, 2);
    var valorTotal' :- CheckAmount("valor_total", valorTotal);
    var bcIcms' :- CheckAmount("bc_icms", bcIcms);
    var valorIcms' :- CheckAmount("valor_icms", valorIcms);
    var isenta' :- CheckAmount("isenta", isenta);
    var outras' :- CheckAmount("outras", outras);
    var aliquota' :- CheckAmountAtMost("aliquota", aliquota, 100);
    Ok(Registro61(data, modelo', serie', subserie', cooInicio, cooFim, valorTotal', bcIcms',
      valorIcms', isenta', outras', aliquota'))
  }

  /** The numbers of a `Registro61` fit their columns. */
  predicate Fits61(r: Registro61) {
    && IntFits(r.cooInicio, 6)
    && IntFits(r.cooFim, 6)
    && ScaledFits(r.valorTotal, 2, 13)
    && ScaledFits(r.bcIcms, 2, 13)
    && ScaledFits(r.valorIcms, 2, 12)
    && ScaledFits(r.isenta, 2, 13)
    && ScaledFits(r.outras, 2, 13)
    && ScaledFits(r.aliquota, 2, 4)
  }

  /** `Registro61.to_sintegra_line`, an f-string: two blank fields in
      place of CNPJ and state registration; amounts and the rate in
      hundredths, truncated. */
  function Encode61(r: Registro61): (line: string)
    ensures |line| >= 2 && line[..2] == "61"
  {
    var fields := Spaces(14) + Spaces(14) + FormatDate(r.data) + PadText(r.modelo, 2) +
      PadText(r.serie, 3) + PadText(r.subserie, 2) + FormatIntField(r.cooInicio, 6) +
      FormatIntField(r.cooFim, 6) + FormatScaled(r.valorTotal, 2, 13) +
      FormatScaled(r.bcIcms, 2, 13) + FormatScaled(r.valorIcms, 2, 12) +
      FormatScaled(r.isenta, 2, 13) + FormatScaled(r.outras, 2, 13) +
      FormatScaled(r.aliquota, 2, 4) + Spaces(1);
    Cut2("61", fields);
    "61" + fields
  }

  /** Where each piece of a type 61 line starts and ends. */
  lemma Cut61(p1: string, p2: string, p3: string, p4: string, p5: string, p6: string, p7: string,
              p8: string, p9: string, p10: string, p11: string, p12: string, p13: string,
              p14: string, p15: string, p16: string)
    requires |p1| == 2 && |p2| == 14 && |p3| == 14 && |p4| == 8 && |p5| == 2 && |p6| == 3 &&
      |p7| == 2 && |p8| == 6 && |p9| == 6 && |p10| == 13 && |p11| == 13 && |p12| == 12 &&
      |p13| == 13 && |p14| == 13 && |p15| == 4 && |p16| == 1
    ensures var l := p1 + (p2 + p3 + p4 + p5 + p6 + p7 + p8 + p9 + p10 + p11 + p12 + p13 + p14 +
      p15 + p16);
      && |l| == 126 && l[2..16] == p2 && l[16..30] == p3 && l[30..38] == p4 && l[38..40] == p5 &&
      l[40..43] == p6 && l[43..45] == p7 && l[45..51] == p8 && l[51..57] == p9 &&
      l[57..70] == p10 && l[70..83] == p11 && l[83..95] == p12 && l[95..108] == p13 &&
      l[108..121] == p14 && l[121..125] == p15 && l[125..] == p16
  {
    var l := p1 + (p2 + p3 + p4 + p5 + p6 + p7 + p8 + p9 + p10 + p11 + p12 + p13 + p14 + p15 + p16);
    assert l[125..] == p16;
    assert l[121..125] == p15;
    assert l[108..121] == p14;
    assert l[95..108] == p13;
    assert l[83..95] == p12;
    assert l[70..83] == p11;
    assert l[57..70] == p10;
    assert l[51..57] == p9;
    assert l[45..51] == p8;
    assert l[43..45] == p7;
    assert l[40..43] == p6;
    assert l[38..40] == p5;
    assert l[30..38] == p4;
    assert l[16..30] == p3;
    assert l[2..16] == p2;
  }

  /** The columns of a type 61 line, read back: 126 characters in all. */
  lemma Layout61(r: Registro61)
    requires Valid61(r) && Fits61(r)
    ensures var line := Encode61(r);
      && |line| == 126
      && line[2..16] == Spaces(14)
      && line[16..30] == Spaces(14)
      && ParseDate(line[30..38]) == Some(r.data)
      && Strip(line[38..40]) == r.modelo
      && Strip(line[40..43]) == r.serie
      && Strip(line[43..45]) == r.subserie
      && DigitsDenote(line[45..51], r.cooInicio)
      && DigitsDenote(line[51..57], r.cooFim)
      && DigitsDenote(line[57..70], TruncScaled(r.valorTotal, 2))
      && DigitsDenote(line[70..83], TruncScaled(r.bcIcms, 2))
      && DigitsDenote(line[83..95], TruncScaled(r.valorIcms, 2))
      && DigitsDenote(line[95..108], TruncScaled(r.isenta, 2))
      && DigitsDenote(line[108..121], TruncScaled(r.outras, 2))
      && DigitsDenote(line[121..125], TruncScaled(r.aliquota, 2))
      && line[125..] == Spaces(1)
  {
    Pow10Values();
    var line := Encode61(r);
    Cut61("61", Spaces(14), Spaces(14), FormatDate(r.data), PadText(r.modelo, 2),
          PadText(r.serie, 3), PadText(r.subserie, 2), FormatIntField(r.cooInicio, 6),
          FormatIntField(r.cooFim, 6), FormatScaled(r.valorTotal, 2, 13),
          FormatScaled(r.bcIcms, 2, 13), FormatScaled(r.valorIcms, 2, 12),
          FormatScaled(r.isenta, 2, 13), FormatScaled(r.outras, 2, 13),
          FormatScaled(r.aliquota, 2, 4), Spaces(1));
    DateColumn(r.data, line[30..38]);
    PadTextBack(r.modelo, 2, line[38..40]);
    PadTextBack(r.serie, 3, line[40..43]);
    PadTextBack(r.subserie, 2, line[43..45]);
    IntColumn(r.cooInicio, 6, line[45..51]);
    IntColumn(r.cooFim, 6, line[51..57]);
    ScaledColumn(r.valorTotal, 2, 13, line[57..70]);
    ScaledColumn(r.bcIcms, 2, 13, line[70..83]);
    ScaledColumn(r.valorIcms, 2, 12, line[83..95]);
    ScaledColumn(r.isenta, 2, 13, line[95..108]);
    ScaledColumn(r.outras, 2, 13, line[108..121]);
    ScaledColumn(r.aliquota, 2, 4, line[121..125]);
  }

  // ---------------------------------------------------------------------
  // Registro 61R

  /** Type 61, subtype R: a product's monthly summary. */
  datatype Registro61R = Registro61R(
    mesAno: string,
    codigoProduto: string,
    quantidade: Dec,
    valorTotal: Dec,
    bcIcms: Dec,
    aliquota: Dec)

  /** What constructing a `Registro61R` guarantees of its fields. */
  predicate Valid61R(r: Registro61R) {
    && TextOk(r.mesAno, 6, 6)
    && TextOk(r.codigoProduto, 0, 14)
    && AmountOk(r.quantidade)
    && AmountOk(r.valorTotal)
    && AmountOk(r.bcIcms)
    && AmountAtMost(r.aliquota, 100)
  }

  /** `Registro61R(...)`: the fields validated in declaration order, the first
      failing one named in the error. It succeeds exactly when the record of
      the stripped (state codes also upper-cased) values is valid, and holds
      that record; a valid record comes back unchanged. */
  function Make61R(mesAno: string, codigoProduto: string, quantidade: Dec, valorTotal: Dec,
                   bcIcms: Dec, aliquota: Dec)
    : (r: Result<Registro61R>)
    ensures r.Ok? ==> Valid61R(r.value)
    ensures var c := Registro61R(mesAno, codigoProduto, quantidade, valorTotal, bcIcms, aliquota);
            Valid61R(c) ==> r == Ok(c)
    ensures var c := Registro61R(Strip(mesAno), Strip(codigoProduto), quantidade, valorTotal,
                bcIcms, aliquota);
            (r.Ok? <==> Valid61R(c)) && (r.Ok? ==> r.value == c)
  {
    var mesAno' :- CheckText("mes_ano", mesAno, 6, 6);
    var codigoProduto' :- CheckText("codigo_produto", codigoProduto, 0, 14);
    var quantidade' :- CheckAmount("quantidade", quantidade);
    var valorTotal' :- CheckAmount("valor_total", valorTotal);
    var bcIcms' :- CheckAmount("bc_icms", bcIcms);
    var aliquota' :- CheckAmountAtMost("aliquota", aliquota, 100);
    Ok(Registro61R(mesAno', codigoProduto', quantidade', valorTotal', bcIcms', aliquota'))
  }

  /** The numbers of a `Registro61R` fit their columns. */
  predicate Fits61R(r: Registro61R) {
    && ScaledFits(r.quantidade, 3, 13)
    && ScaledFits(r.valorTotal, 0, 16)
    && ScaledFits(r.bcIcms, 0, 16)
    && ScaledFits(r.aliquota, 2, 4)
  }

  /** `Registro61R.to_sintegra_line`, an f-string: the type "61" and the
      subtype "R", then the fields; value and base in whole units. */
  function Encode61R(r: Registro61R): (line: string)
    ensures |line| >= 3 && line[..3] == "61R" && line[..2] == "61"
  {
    var fields := r.mesAno + PadText(r.codigoProduto, 14) + FormatScaled(r.quantidade, 3, 13) +
      FormatScaled(r.valorTotal, 0, 16) + FormatScaled(r.bcIcms, 0, 16) +
      FormatScaled(r.aliquota, 2, 4) + Spaces(54);
    Cut2("61R", fields);
    "61R" + fields
  }

  /** Where each piece of a type 61R line starts and ends. */
  lemma Cut61R(p1: string, p2: string, p3: string, p4: string, p5: string, p6: string, p7: string,
               p8: string)
    requires |p1| == 3 && |p2| == 6 && |p3| == 14 && |p4| == 13 && |p5| == 16 && |p6| == 16 &&
      |p7| == 4 && |p8| == 54
    ensures var l := p1 + (p2 + p3 + p4 + p5 + p6 + p7 + p8);
      && |l| == 126 && l[3..9] == p2 && l[9..23] == p3 && l[23..36] == p4 && l[36..52] == p5 &&
      l[52..68] == p6 && l[68..72] == p7 && l[72..] == p8
  {
    var l := p1 + (p2 + p3 + p4 + p5 + p6 + p7 + p8);
    assert l[72..] == p8;
    assert l[68..72] == p7;
    assert l[52..68] == p6;
    assert l[36..52] == p5;
    assert l[23..36] == p4;
    assert l[9..23] == p3;
    assert l[3..9] == p2;
  }

  /** The columns of a type 61R line, read back: 126 characters in all. */
  lemma Layout61R(r: Registro61R)
    requires Valid61R(r) && Fits61R(r)
    ensures var line := Encode61R(r);
      && |line| == 126
      && line[3..9] == r.mesAno
      && Strip(line[9..23]) == r.codigoProduto
      && DigitsDenote(line[23..36], TruncScaled(r.quantidade, 3))
      && DigitsDenote(line[36..52], TruncScaled(r.valorTotal, 0))
      && DigitsDenote(line[52..68], TruncScaled(r.bcIcms, 0))
      && DigitsDenote(line[68..72], TruncScaled(r.aliquota, 2))
      && line[72..] == Spaces(54)
  {
    Pow10Values();
    var line := Encode61R(r);
    Cut61R("61R", r.mesAno, PadText(r.codigoProduto, 14), FormatScaled(r.quantidade, 3, 13),
          FormatScaled(r.valorTotal, 0, 16), FormatScaled(r.bcIcms, 0, 16),
          FormatScaled(r.aliquota, 2, 4), Spaces(54));
    PadTextBack(r.codigoProduto, 14, line[9..23]);
    ScaledColumn(r.quantidade, 3, 13, line[23..36]);
    ScaledColumn(r.valorTotal, 0, 16, line[36..52]);
    ScaledColumn(r.bcIcms, 0, 16, line[52..68]);
    ScaledColumn(r.aliquota, 2, 4, line[68..72]);
  }

}
