/** The invoice records: type 50 (invoice totals, built from the shared
    formatters), 51 (electricity, gas, water and communication bills), 53
    (tax substitution), 54 (products of an invoice) and 55 (GNRE payment
    slips), the last four built from f-strings. */
module InvoiceRecords {
  import opened Text
  import opened Fields
  import opened Scan

  // ---------------------------------------------------------------------
  // Registro 50

  /** Type 50, the totals of an invoice (models 1 and 1A) for one
      combination of CFOP and ICMS rate. */
  datatype Registro50 = Registro50(
    cnpj: string,
    ie: string,
    data: Date,
    unidadeFederacao: string,
    modelo: int,
    serie: string,
    numero: int,
    cfop: int,
    emitente: string,
    valorTotal: Dec,
    bcIcms: Dec,
    valorIcms: Dec,
    isenta: Dec,
    outras: Dec,
    aliquota: Dec,
    situacao: string)

  /** What constructing a `Registro50` guarantees of its fields. */
  predicate Valid50(r: Registro50) {
    && DigitCodeOk(r.cnpj, 14)
    && TextOk(r.ie, 0, 14)
    && UfOk(r.unidadeFederacao)
    && InRange(r.modelo, 1, 99)
    && TextOk(r.serie, 0, 3)
    && InRange(r.numero, 1, 999999)
    && InRange(r.cfop, 1000, 9999)
    && IssuerOk(r.emitente)
    && AmountOk(r.valorTotal)
    && AmountOk(r.bcIcms)
    && AmountOk(r.valorIcms)
    && AmountOk(r.isenta)
    && AmountOk(r.outras)
    && AmountAtMost(r.aliquota, 100)
    && TextOk(r.situacao, 1, 1)
  }

  /** `Registro50(...)`: the fields validated in declaration order, the first
      failing one named in the error. It succeeds exactly when the record of
      the stripped (state codes also upper-cased) values is valid, and holds
      that record; a valid record comes back unchanged. */
  function Make50(cnpj: string, ie: string, data: Date, unidadeFederacao: string, modelo: int,
                  serie: string, numero: int, cfop: int, emitente: string, valorTotal: Dec,
                  bcIcms: Dec, valorIcms: Dec, isenta: Dec, outras: Dec, aliquota: Dec,
                  situacao: string)
    : (r: Result<Registro50>)
    ensures r.Ok? ==> Valid50(r.value)
    ensures var c := Registro50(cnpj, ie, data, unidadeFederacao, modelo, serie, numero, cfop,
                emitente, valorTotal, bcIcms, valorIcms, isenta, outras, aliquota, situacao);
            Valid50(c) ==> r == Ok(c)
    ensures var c := Registro50(Strip(cnpj), Strip(ie), data, Upper(Strip(unidadeFederacao)),
                modelo, Strip(serie), numero, cfop, emitente, valorTotal, bcIcms, valorIcms, isenta,
                outras, aliquota, Strip(situacao));
            (r.Ok? <==> Valid50(c)) && (r.Ok? ==> r.value == c)
  {
    var cnpj' :- CheckDigitCode("cnpj", cnpj, 14);
    var ie' :- CheckText("ie", ie, 0, 14);
    var unidadeFederacao' :- CheckUf("unidade_federacao", unidadeFederacao);
    var modelo' :- CheckIntRange("modelo", modelo, 1, 99);
    var serie' :- CheckText("serie", serie, 0, 3);
    var numero' :- CheckIntRange("numero", numero, 1, 999999);
    var cfop' :- CheckIntRange("cfop", cfop, 1000, 9999);
    var emitente' :- CheckIssuer("emitente", emitente);
    var valorTotal' :- CheckAmount("valor_total", valorTotal);
    var bcIcms' :- CheckAmount("bc_icms", bcIcms);
    var valorIcms' :- CheckAmount("valor_icms", valorIcms);
    var isenta' :- CheckAmount("isenta", isenta);
    var outras' :- CheckAmount("outras", outras);
    var aliquota' :- CheckAmountAtMost("aliquota", aliquota, 100);
    var situacao' :- CheckText("situacao", situacao, 1, 1);
    Ok(Registro50(cnpj', ie', data, unidadeFederacao', modelo', serie', numero', cfop', emitente',
      valorTotal', bcIcms', valorIcms', isenta', outras', aliquota', situacao'))
  }

  /** The numbers of a `Registro50` fit their columns. */
  predicate Fits50(r: Registro50) {
    && NumericFits(r.valorTotal, 13, 2)
    && NumericFits(r.bcIcms, 13, 2)
    && NumericFits(r.valorIcms, 13, 2)
    && NumericFits(r.isenta, 13, 2)
    && NumericFits(r.outras, 13, 2)
    && NumericFits(r.aliquota, 4, 2)
  }

  /** `Registro50.to_sintegra_line`: the shared formatters, amounts with two
      decimal places; the line starts with "50". */
  function Encode50(r: Registro50): (line: string)
    ensures |line| >= 2 && line[..2] == "50"
  {
    var head := FormatText("50", 2);
    assert head == "50";
    var fields := FormatDigitCode(r.cnpj, 14) + FormatText(r.ie, 14) + FormatDate(r.data) +
      FormatText(r.unidadeFederacao, 2) + FormatNumeric(Dec(r.modelo, 0), 2, 0) +
      FormatText(r.serie, 3) + FormatNumeric(Dec(r.numero, 0), 6, 0) +
      FormatNumeric(Dec(r.cfop, 0), 4, 0) + FormatText(r.emitente, 1) +
      FormatNumeric(r.valorTotal, 13, 2) + FormatNumeric(r.bcIcms, 13, 2) +
      FormatNumeric(r.valorIcms, 13, 2) + FormatNumeric(r.isenta, 13, 2) +
      FormatNumeric(r.outras, 13, 2) + FormatNumeric(r.aliquota, 4, 2) + FormatText(r.situacao, 1);
    Cut2(head, fields);
    head + fields
  }

  /** Where each piece of a type 50 line starts and ends. */
  lemma Cut50(p1: string, p2: string, p3: string, p4: string, p5: string, p6: string, p7: string,
              p8: string, p9: string, p10: string, p11: string, p12: string, p13: string,
              p14: string, p15: string, p16: string, p17: string)
    requires |p1| == 2 && |p2| == 14 && |p3| == 14 && |p4| == 8 && |p5| == 2 && |p6| == 2 &&
      |p7| == 3 && |p8| == 6 && |p9| == 4 && |p10| == 1 && |p11| == 13 && |p12| == 13 &&
      |p13| == 13 && |p14| == 13 && |p15| == 13 && |p16| == 4 && |p17| == 1
    ensures var l := p1 + (p2 + p3 + p4 + p5 + p6 + p7 + p8 + p9 + p10 + p11 + p12 + p13 + p14 +
      p15 + p16 + p17);
      && |l| == 126 && l[2..16] == p2 && l[16..30] == p3 && l[30..38] == p4 && l[38..40] == p5 &&
      l[40..42] == p6 && l[42..45] == p7 && l[45..51] == p8 && l[51..55] == p9 &&
      l[55..56] == p10 && l[56..69] == p11 && l[69..82] == p12 && l[82..95] == p13 &&
      l[95..108] == p14 && l[108..121] == p15 && l[121..125] == p16 && l[125..] == p17
  {
    var l := p1 + (p2 + p3 + p4 + p5 + p6 + p7 + p8 + p9 + p10 + p11 + p12 + p13 + p14 + p15 +
      p16 + p17);
    assert l[125..] == p17;
    assert l[121..125] == p16;
    assert l[108..121] == p15;
    assert l[95..108] == p14;
    assert l[82..95] == p13;
    assert l[69..82] == p12;
    assert l[56..69] == p11;
    assert l[55..56] == p10;
    assert l[51..55] == p9;
    assert l[45..51] == p8;
    assert l[42..45] == p7;
    assert l[40..42] == p6;
    assert l[38..40] == p5;
    assert l[30..38] == p4;
    assert l[16..30] == p3;
    assert l[2..16] == p2;
  }

  /** The columns of a type 50 line, read back: 126 characters in all. */
  lemma Layout50(r: Registro50)
    requires Valid50(r) && Fits50(r)
    ensures var line := Encode50(r);
      && |line| == 126
      && line[2..16] == r.cnpj
      && Strip(line[16..30]) == r.ie
      && ParseDate(line[30..38]) == Some(r.data)
      && line[38..40] == r.unidadeFederacao
      && DigitsDenote(line[40..42], r.modelo)
      && Strip(line[42..45]) == r.serie
      && DigitsDenote(line[45..51], r.numero)
      && DigitsDenote(line[51..55], r.cfop)
      && line[55..56] == r.emitente
      && DigitsDenote(line[56..69], WrittenValue(r.valorTotal, 2))
      && DigitsDenote(line[69..82], WrittenValue(r.bcIcms, 2))
      && DigitsDenote(line[82..95], WrittenValue(r.valorIcms, 2))
      && DigitsDenote(line[95..108], WrittenValue(r.isenta, 2))
      && DigitsDenote(line[108..121], WrittenValue(r.outras, 2))
      && DigitsDenote(line[121..125], WrittenValue(r.aliquota, 2))
      && line[125..] == r.situacao
  {
    Pow10Values();
    NumericIntColumn(r.modelo, 2, FormatNumeric(Dec(r.modelo, 0), 2, 0));
    NumericIntColumn(r.numero, 6, FormatNumeric(Dec(r.numero, 0), 6, 0));
    NumericIntColumn(r.cfop, 4, FormatNumeric(Dec(r.cfop, 0), 4, 0));
    assert FormatText("50", 2) == "50";
    var line := Encode50(r);
    Cut50("50", FormatDigitCode(r.cnpj, 14), FormatText(r.ie, 14), FormatDate(r.data),
          FormatText(r.unidadeFederacao, 2), FormatNumeric(Dec(r.modelo, 0), 2, 0),
          FormatText(r.serie, 3), FormatNumeric(Dec(r.numero, 0), 6, 0),
          FormatNumeric(Dec(r.cfop, 0), 4, 0), FormatText(r.emitente, 1),
          FormatNumeric(r.valorTotal, 13, 2), FormatNumeric(r.bcIcms, 13, 2),
          FormatNumeric(r.valorIcms, 13, 2), FormatNumeric(r.isenta, 13, 2),
          FormatNumeric(r.outras, 13, 2), FormatNumeric(r.aliquota, 4, 2),
          FormatText(r.situacao, 1));
    FormatTextBack(r.ie, 14, line[16..30]);
    DateColumn(r.data, line[30..38]);
    FormatTextExact(r.unidadeFederacao, 2, line[38..40]);
    FormatTextBack(r.serie, 3, line[42..45]);
    FormatTextExact(r.emitente, 1, line[55..56]);
    NumericColumn(r.valorTotal, 13, 2, line[56..69]);
    NumericColumn(r.bcIcms, 13, 2, line[69..82]);
    NumericColumn(r.valorIcms, 13, 2, line[82..95]);
    NumericColumn(r.isenta, 13, 2, line[95..108]);
    NumericColumn(r.outras, 13, 2, line[108..121]);
    NumericColumn(r.aliquota, 4, 2, line[121..125]);
    FormatTextExact(r.situacao, 1, line[125..]);
  }

  // ---------------------------------------------------------------------
  // Registro 51

  /** Type 51, an invoice for electricity, gas, water or communication
      services, with its IPI. */
  datatype Registro51 = Registro51(
    cnpj: string,
    ie: string,
    data: Date,
    uf: string,
    serie: string,
    numero: int,
    cfop: int,
    valorTotal: Dec,
    valorIpi: Dec,
    isenta: Dec,
    outras: Dec,
    situacao: string)

  /** What constructing a `Registro51` guarantees of its fields. */
  predicate Valid51(r: Registro51) {
    && DigitCodeOk(r.cnpj, 14)
    && TextOk(r.ie, 0, 14)
    && UfOk(r.uf)
    && TextOk(r.serie, 0, 3)
    && InRange(r.cfop, 1000, 9999)
    && AmountOk(r.valorTotal)
    && AmountOk(r.valorIpi)
    && AmountOk(r.isenta)
    && AmountOk(r.outras)
    && TextOk(r.situacao, 1, 1)
  }

  /** `Registro51(...)`: the fields validated in declaration order, the first
      failing one named in the error. It succeeds exactly when the record of
      the stripped (state codes also upper-cased) values is valid, and holds
      that record; a valid record comes back unchanged. */
  function Make51(cnpj: string, ie: string, data: Date, uf: string, serie: string, numero: int,
                  cfop: int, valorTotal: Dec, valorIpi: Dec, isenta: Dec, outras: Dec,
                  situacao: string)
    : (r: Result<Registro51>)
    ensures r.Ok? ==> Valid51(r.value)
    ensures var c := Registro51(cnpj, ie, data, uf, serie, numero, cfop, valorTotal, valorIpi,
                isenta, outras, situacao);
            Valid51(c) ==> r == Ok(c)
    ensures var c := Registro51(Strip(cnpj), Strip(ie), data, Upper(Strip(uf)), Strip(serie),
                numero, cfop, valorTotal, valorIpi, isenta, outras, Strip(situacao));
            (r.Ok? <==> Valid51(c)) && (r.Ok? ==> r.value == c)
  {
    var cnpj' :- CheckDigitCode("cnpj", cnpj, 14);
    var ie' :- CheckText("ie", ie, 0, 14);
    var uf' :- CheckUf("uf", uf);
    var serie' :- CheckText("serie", serie, 0, 3);
    var cfop' :- CheckIntRange("cfop", cfop, 1000, 9999);
    var valorTotal' :- CheckAmount("valor_total", valorTotal);
    var valorIpi' :- CheckAmount("valor_ipi", valorIpi);
    var isenta' :- CheckAmount("isenta", isenta);
    var outras' :- CheckAmount("outras", outras);
    var situacao' :- CheckText("situacao", situacao, 1, 1);
    Ok(Registro51(cnpj', ie', data, uf', serie', numero, cfop', valorTotal', valorIpi', isenta',
      outras', situacao'))
  }

  /** The numbers of a `Registro51` fit their columns. */
  predicate Fits51(r: Registro51) {
    && IntFits(r.numero, 6)
    && ScaledFits(r.valorTotal, 2, 13)
    && ScaledFits(r.valorIpi, 2, 13)
    && ScaledFits(r.isenta, 2, 13)
    && ScaledFits(r.outras, 2, 13)
  }

  /** `Registro51.to_sintegra_line`, an f-string: amounts in cents,
      truncated; the line starts with "51". */
  function Encode51(r: Registro51): (line: string)
    ensures |line| >= 2 && line[..2] == "51"
  {
    var fields := ZFill(r.cnpj, 14) + PadText(r.ie, 14) + FormatDate(r.data) + r.uf +
      PadText(r.serie, 3) + FormatIntField(r.numero, 6) + FormatIntField(r.cfop, 4) +
      FormatScaled(r.valorTotal, 2, 13) + FormatScaled(r.valorIpi, 2, 13) +
      FormatScaled(r.isenta, 2, 13) + FormatScaled(r.outras, 2, 13) + Spaces(20) + r.situacao;
    Cut2("51", fields);
    "51" + fields
  }

  /** Where each piece of a type 51 line starts and ends. */
  lemma Cut51(p1: string, p2: string, p3: string, p4: string, p5: string, p6: string, p7: string,
              p8: string, p9: string, p10: string, p11: string, p12: string, p13: string,
              p14: string)
    requires |p1| == 2 && |p2| == 14 && |p3| == 14 && |p4| == 8 && |p5| == 2 && |p6| == 3 &&
      |p7| == 6 && |p8| == 4 && |p9| == 13 && |p10| == 13 && |p11| == 13 && |p12| == 13 &&
      |p13| == 20 && |p14| == 1
    ensures var l := p1 + (p2 + p3 + p4 + p5 + p6 + p7 + p8 + p9 + p10 + p11 + p12 + p13 + p14);
      && |l| == 126 && l[2..16] == p2 && l[16..30] == p3 && l[30..38] == p4 && l[38..40] == p5 &&
      l[40..43] == p6 && l[43..49] == p7 && l[49..53] == p8 && l[53..66] == p9 &&
      l[66..79] == p10 && l[79..92] == p11 && l[92..105] == p12 && l[105..125] == p13 &&
      l[125..] == p14
  {
    var l := p1 + (p2 + p3 + p4 + p5 + p6 + p7 + p8 + p9 + p10 + p11 + p12 + p13 + p14);
    assert l[125..] == p14;
    assert l[105..125] == p13;
    assert l[92..105] == p12;
    assert l[79..92] == p11;
    assert l[66..79] == p10;
    assert l[53..66] == p9;
    assert l[49..53] == p8;
    assert l[43..49] == p7;
    assert l[40..43] == p6;
    assert l[38..40] == p5;
    assert l[30..38] == p4;
    assert l[16..30] == p3;
    assert l[2..16] == p2;
  }

  /** The columns of a type 51 line, read back: 126 characters in all. */
  lemma Layout51(r: Registro51)
    requires Valid51(r) && Fits51(r)
    ensures var line := Encode51(r);
      && |line| == 126
      && line[2..16] == r.cnpj
      && Strip(line[16..30]) == r.ie
      && ParseDate(line[30..38]) == Some(r.data)
      && line[38..40] == r.uf
      && Strip(line[40..43]) == r.serie
      && DigitsDenote(line[43..49], r.numero)
      && DigitsDenote(line[49..53], r.cfop)
      && DigitsDenote(line[53..66], TruncScaled(r.valorTotal, 2))
      && DigitsDenote(line[66..79], TruncScaled(r.valorIpi, 2))
      && DigitsDenote(line[79..92], TruncScaled(r.isenta, 2))
      && DigitsDenote(line[92..105], TruncScaled(r.outras, 2))
      && line[105..125] == Spaces(20)
      && line[125..] == r.situacao
  {
    Pow10Values();
    var line := Encode51(r);
    Cut51("51", ZFill(r.cnpj, 14), PadText(r.ie, 14), FormatDate(r.data), r.uf,
          PadText(r.serie, 3), FormatIntField(r.numero, 6), FormatIntField(r.cfop, 4),
          FormatScaled(r.valorTotal, 2, 13), FormatScaled(r.valorIpi, 2, 13),
          FormatScaled(r.isenta, 2, 13), FormatScaled(r.outras, 2, 13), Spaces(20), r.situacao);
    PadTextBack(r.ie, 14, line[16..30]);
    DateColumn(r.data, line[30..38]);
    PadTextBack(r.serie, 3, line[40..43]);
    IntColumn(r.numero, 6, line[43..49]);
    IntColumn(r.cfop, 4, line[49..53]);
    ScaledColumn(r.valorTotal, 2, 13, line[53..66]);
    ScaledColumn(r.valorIpi, 2, 13, line[66..79]);
    ScaledColumn(r.isenta, 2, 13, line[79..92]);
    ScaledColumn(r.outras, 2, 13, line[92..105]);
  }

  // ---------------------------------------------------------------------
  // Registro 53

  /** Type 53, the tax substitution part of an invoice. */
  datatype Registro53 = Registro53(
    cnpj: string,
    ie: string,
    data: Date,
    uf: string,
    modelo: int,
    serie: string,
    numero: int,
    cfop: int,
    emitente: string,
    bcIcms: Dec,
    icmsRetido: Dec,
    despesasAcessorias: Dec,
    situacao: string)

  /** What constructing a `Registro53` guarantees of its fields. */
  predicate Valid53(r: Registro53) {
    && DigitCodeOk(r.cnpj, 14)
    && TextOk(r.ie, 0, 14)
    && UfOk(r.uf)
    && TextOk(r.serie, 0, 3)
    && InRange(r.cfop, 1000, 9999)
    && TextOk(r.emitente, 1, 1)
    && AmountOk(r.bcIcms)
    && AmountOk(r.icmsRetido)
    && AmountOk(r.despesasAcessorias)
    && TextOk(r.situacao, 1, 1)
  }

  /** `Registro53(...)`: the fields validated in declaration order, the first
      failing one named in the error. It succeeds exactly when the record of
      the stripped (state codes also upper-cased) values is valid, and holds
      that record; a valid record comes back unchanged. */
  function Make53(cnpj: string, ie: string, data: Date, uf: string, modelo: int, serie: string,
                  numero: int, cfop: int, emitente: string, bcIcms: Dec, icmsRetido: Dec,
                  despesasAcessorias: Dec, situacao: string)
    : (r: Result<Registro53>)
    ensures r.Ok? ==> Valid53(r.value)
    ensures var c := Registro53(cnpj, ie, data, uf, modelo, serie, numero, cfop, emitente, bcIcms,
                icmsRetido, despesasAcessorias, situacao);
            Valid53(c) ==> r == Ok(c)
    ensures var c := Registro53(Strip(cnpj), Strip(ie), data, Upper(Strip(uf)), modelo,
                Strip(serie), numero, cfop, Strip(emitente), bcIcms, icmsRetido, despesasAcessorias,
                Strip(situacao));
            (r.Ok? <==> Valid53(c)) && (r.Ok? ==> r.value == c)
  {
    var cnpj' :- CheckDigitCode("cnpj", cnpj, 14);
    var ie' :- CheckText("ie", ie, 0, 14);
    var uf' :- CheckUf("uf", uf);
    var serie' :- CheckText("serie", serie, 0, 3);
    var cfop' :- CheckIntRange("cfop", cfop, 1000, 9999);
    var emitente' :- CheckText("emitente", emitente, 1, 1);
    var bcIcms' :- CheckAmount("bc_icms", bcIcms);
    var icmsRetido' :- CheckAmount("icms_retido", icmsRetido);
    var despesasAcessorias' :- CheckAmount("despesas_acessorias", despesasAcessorias);
    var situacao' :- CheckText("situacao", situacao, 1, 1);
    Ok(Registro53(cnpj', ie', data, uf', modelo, serie', numero, cfop', emitente', bcIcms',
      icmsRetido', despesasAcessorias', situacao'))
  }

  /** The numbers of a `Registro53` fit their columns. */
  predicate Fits53(r: Registro53) {
    && IntFits(r.modelo, 2)
    && IntFits(r.numero, 6)
    && ScaledFits(r.bcIcms, 2, 13)
    && ScaledFits(r.icmsRetido, 2, 13)
    && ScaledFits(r.despesasAcessorias, 2, 13)
  }

  /** `Registro53.to_sintegra_line`, an f-string: amounts in cents,
      truncated; the line starts with "53". */
  function Encode53(r: Registro53): (line: string)
    ensures |line| >= 2 && line[..2] == "53"
  {
    var fields := ZFill(r.cnpj, 14) + PadText(r.ie, 14) + FormatDate(r.data) + r.uf +
      FormatIntField(r.modelo, 2) + PadText(r.serie, 3) + FormatIntField(r.numero, 6) +
      FormatIntField(r.cfop, 4) + r.emitente + FormatScaled(r.bcIcms, 2, 13) +
      FormatScaled(r.icmsRetido, 2, 13) + FormatScaled(r.despesasAcessorias, 2, 13) + r.situacao +
      Spaces(30);
    Cut2("53", fields);
    "53" + fields
  }

  /** Where each piece of a type 53 line starts and ends. */
  lemma Cut53(p1: string, p2: string, p3: string, p4: string, p5: string, p6: string, p7: string,
              p8: string, p9: string, p10: string, p11: string, p12: string, p13: string,
              p14: string, p15: string)
    requires |p1| == 2 && |p2| == 14 && |p3| == 14 && |p4| == 8 && |p5| == 2 && |p6| == 2 &&
      |p7| == 3 && |p8| == 6 && |p9| == 4 && |p10| == 1 && |p11| == 13 && |p12| == 13 &&
      |p13| == 13 && |p14| == 1 && |p15| == 30
    ensures var l := p1 + (p2 + p3 + p4 + p5 + p6 + p7 + p8 + p9 + p10 + p11 + p12 + p13 + p14 +
      p15);
      && |l| == 126 && l[2..16] == p2 && l[16..30] == p3 && l[30..38] == p4 && l[38..40] == p5 &&
      l[40..42] == p6 && l[42..45] == p7 && l[45..51] == p8 && l[51..55] == p9 &&
      l[55..56] == p10 && l[56..69] == p11 && l[69..82] == p12 && l[82..95] == p13 &&
      l[95..96] == p14 && l[96..] == p15
  {
    var l := p1 + (p2 + p3 + p4 + p5 + p6 + p7 + p8 + p9 + p10 + p11 + p12 + p13 + p14 + p15);
    assert l[96..] == p15;
    assert l[95..96] == p14;
    assert l[82..95] == p13;
    assert l[69..82] == p12;
    assert l[56..69] == p11;
    assert l[55..56] == p10;
    assert l[51..55] == p9;
    assert l[45..51] == p8;
    assert l[42..45] == p7;
    assert l[40..42] == p6;
    assert l[38..40] == p5;
    assert l[30..38] == p4;
    assert l[16..30] == p3;
    assert l[2..16] == p2;
  }

  /** The columns of a type 53 line, read back: 126 characters in all. */
  lemma Layout53(r: Registro53)
    requires Valid53(r) && Fits53(r)
    ensures var line := Encode53(r);
      && |line| == 126
      && line[2..16] == r.cnpj
      && Strip(line[16..30]) == r.ie
      && ParseDate(line[30..38]) == Some(r.data)
      && line[38..40] == r.uf
      && DigitsDenote(line[40..42], r.modelo)
      && Strip(line[42..45]) == r.serie
      && DigitsDenote(line[45..51], r.numero)
      && DigitsDenote(line[51..55], r.cfop)
      && line[55..56] == r.emitente
      && DigitsDenote(line[56..69], TruncScaled(r.bcIcms, 2))
      && DigitsDenote(line[69..82], TruncScaled(r.icmsRetido, 2))
      && DigitsDenote(line[82..95], TruncScaled(r.despesasAcessorias, 2))
      && line[95..96] == r.situacao
      && line[96..] == Spaces(30)
  {
    Pow10Values();
    var line := Encode53(r);
    Cut53("53", ZFill(r.cnpj, 14), PadText(r.ie, 14), FormatDate(r.data), r.uf,
          FormatIntField(r.modelo, 2), PadText(r.serie, 3), FormatIntField(r.numero, 6),
          FormatIntField(r.cfop, 4), r.emitente, FormatScaled(r.bcIcms, 2, 13),
          FormatScaled(r.icmsRetido, 2, 13), FormatScaled(r.despesasAcessorias, 2, 13), r.situacao,
          Spaces(30));
    PadTextBack(r.ie, 14, line[16..30]);
    DateColumn(r.data, line[30..38]);
    IntColumn(r.modelo, 2, line[40..42]);
    PadTextBack(r.serie, 3, line[42..45]);
    IntColumn(r.numero, 6, line[45..51]);
    IntColumn(r.cfop, 4, line[51..55]);
    ScaledColumn(r.bcIcms, 2, 13, line[56..69]);
    ScaledColumn(r.icmsRetido, 2, 13, line[69..82]);
    ScaledColumn(r.despesasAcessorias, 2, 13, line[82..95]);
  }

  // ---------------------------------------------------------------------
  // Registro 54

  /** Type 54, one product line of an invoice. */
  datatype Registro54 = Registro54(
    cnpj: string,
    modelo: int,
    serie: string,
    numero: int,
    cfop: int,
    cst: int,
    item: int,
    codigo: string,
    quantidade: Dec,
    valor: Dec,
    desconto: Dec,
    bcIcms: Dec,
    bcIcmsSt: Dec,
    valorIpi: Dec,
    aliquota: Dec)

  /** What constructing a `Registro54` guarantees of its fields. */
  predicate Valid54(r: Registro54) {
    && DigitCodeOk(r.cnpj, 14)
    && TextOk(r.serie, 0, 3)
    && InRange(r.cfop, 1000, 9999)
    && TextOk(r.codigo, 0, 14)
    && AmountOk(r.quantidade)
    && AmountOk(r.valor)
    && AmountOk(r.desconto)
    && AmountOk(r.bcIcms)
    && AmountOk(r.bcIcmsSt)
    && AmountOk(r.valorIpi)
    && AmountAtMost(r.aliquota, 100)
  }

  /** `Registro54(...)`: the fields validated in declaration order, the first
      failing one named in the error. It succeeds exactly when the record of
      the stripped (state codes also upper-cased) values is valid, and holds
      that record; a valid record comes back unchanged. */
  function Make54(cnpj: string, modelo: int, serie: string, numero: int, cfop: int, cst: int,
                  item: int, codigo: string, quantidade: Dec, valor: Dec, desconto: Dec,
                  bcIcms: Dec, bcIcmsSt: Dec, valorIpi: Dec, aliquota: Dec)
    : (r: Result<Registro54>)
    ensures r.Ok? ==> Valid54(r.value)
    ensures var c := Registro54(cnpj, modelo, serie, numero, cfop, cst, item, codigo, quantidade,
                valor, desconto, bcIcms, bcIcmsSt, valorIpi, aliquota);
            Valid54(c) ==> r == Ok(c)
    ensures var c := Registro54(Strip(cnpj), modelo, Strip(serie), numero, cfop, cst, item,
                Strip(codigo), quantidade, valor, desconto, bcIcms, bcIcmsSt, valorIpi, aliquota);
            (r.Ok? <==> Valid54(c)) && (r.Ok? ==> r.value == c)
  {
    var cnpj' :- CheckDigitCode("cnpj", cnpj, 14);
    var serie' :- CheckText("serie", serie, 0, 3);
    var cfop' :- CheckIntRange("cfop", cfop, 1000, 9999);
    var codigo' :- CheckText("codigo", codigo, 0, 14);
    var quantidade' :- CheckAmount("quantidade", quantidade);
    var valor' :- CheckAmount("valor", valor);
    var desconto' :- CheckAmount("desconto", desconto);
    var bcIcms' :- CheckAmount("bc_icms", bcIcms);
    var bcIcmsSt' :- CheckAmount("bc_icms_st", bcIcmsSt);
    var valorIpi' :- CheckAmount("valor_ipi", valorIpi);
    var aliquota' :- CheckAmountAtMost("aliquota", aliquota, 100);
    Ok(Registro54(cnpj', modelo, serie', numero, cfop', cst, item, codigo', quantidade', valor',
      desconto', bcIcms', bcIcmsSt', valorIpi', aliquota'))
  }

  /** The numbers of a `Registro54` fit their columns. */
  predicate Fits54(r: Registro54) {
    && IntFits(r.modelo, 2)
    && IntFits(r.numero, 6)
    && IntFits(r.cst, 3)
    && IntFits(r.item, 3)
    && ScaledFits(r.quantidade, 3, 11)
    && ScaledFits(r.valor, 2, 12)
    && ScaledFits(r.desconto, 2, 12)
    && ScaledFits(r.bcIcms, 2, 12)
    && ScaledFits(r.bcIcmsSt, 2, 12)
    && ScaledFits(r.valorIpi, 2, 12)
    && ScaledFits(r.aliquota, 2, 4)
  }

  /** `Registro54.to_sintegra_line`, an f-string: the quantity in
      thousandths, amounts and the rate in hundredths, all truncated; the
      line starts with "54". */
  function Encode54(r: Registro54): (line: string)
    ensures |line| >= 2 && line[..2] == "54"
  {
    var fields := ZFill(r.cnpj, 14) + FormatIntField(r.modelo, 2) + PadText(r.serie, 3) +
      FormatIntField(r.numero, 6) + FormatIntField(r.cfop, 4) + FormatIntField(r.cst, 3) +
      FormatIntField(r.item, 3) + PadText(r.codigo, 14) + FormatScaled(r.quantidade, 3, 11) +
      FormatScaled(r.valor, 2, 12) + FormatScaled(r.desconto, 2, 12) +
      FormatScaled(r.bcIcms, 2, 12) + FormatScaled(r.bcIcmsSt, 2, 12) +
      FormatScaled(r.valorIpi, 2, 12) + FormatScaled(r.aliquota, 2, 4);
    Cut2("54", fields);
    "54" + fields
  }

  /** Where each piece of a type 54 line starts and ends. */
  lemma Cut54(p1: string, p2: string, p3: string, p4: string, p5: string, p6: string, p7: string,
              p8: string, p9: string, p10: string, p11: string, p12: string, p13: string,
              p14: string, p15: string, p16: string)
    requires |p1| == 2 && |p2| == 14 && |p3| == 2 && |p4| == 3 && |p5| == 6 && |p6| == 4 &&
      |p7| == 3 && |p8| == 3 && |p9| == 14 && |p10| == 11 && |p11| == 12 && |p12| == 12 &&
      |p13| == 12 && |p14| == 12 && |p15| == 12 && |p16| == 4
    ensures var l := p1 + (p2 + p3 + p4 + p5 + p6 + p7 + p8 + p9 + p10 + p11 + p12 + p13 + p14 +
      p15 + p16);
      && |l| == 126 && l[2..16] == p2 && l[16..18] == p3 && l[18..21] == p4 && l[21..27] == p5 &&
      l[27..31] == p6 && l[31..34] == p7 && l[34..37] == p8 && l[37..51] == p9 &&
      l[51..62] == p10 && l[62..74] == p11 && l[74..86] == p12 && l[86..98] == p13 &&
      l[98..110] == p14 && l[110..122] == p15 && l[122..] == p16
  {
    var l := p1 + (p2 + p3 + p4 + p5 + p6 + p7 + p8 + p9 + p10 + p11 + p12 + p13 + p14 + p15 + p16);
    assert l[122..] == p16;
    assert l[110..122] == p15;
    assert l[98..110] == p14;
    assert l[86..98] == p13;
    assert l[74..86] == p12;
    assert l[62..74] == p11;
    assert l[51..62] == p10;
    assert l[37..51] == p9;
    assert l[34..37] == p8;
    assert l[31..34] == p7;
    assert l[27..31] == p6;
    assert l[21..27] == p5;
    assert l[18..21] == p4;
    assert l[16..18] == p3;
    assert l[2..16] == p2;
  }

  /** The columns of a type 54 line, read back: 126 characters in all. */
  lemma Layout54(r: Registro54)
    requires Valid54(r) && Fits54(r)
    ensures var line := Encode54(r);
      && |line| == 126
      && line[2..16] == r.cnpj
      && DigitsDenote(line[16..18], r.modelo)
      && Strip(line[18..21]) == r.serie
      && DigitsDenote(line[21..27], r.numero)
      && DigitsDenote(line[27..31], r.cfop)
      && DigitsDenote(line[31..34], r.cst)
      && DigitsDenote(line[34..37], r.item)
      && Strip(line[37..51]) == r.codigo
      && DigitsDenote(line[51..62], TruncScaled(r.quantidade, 3))
      && DigitsDenote(line[62..74], TruncScaled(r.valor, 2))
      && DigitsDenote(line[74..86], TruncScaled(r.desconto, 2))
      && DigitsDenote(line[86..98], TruncScaled(r.bcIcms, 2))
      && DigitsDenote(line[98..110], TruncScaled(r.bcIcmsSt, 2))
      && DigitsDenote(line[110..122], TruncScaled(r.valorIpi, 2))
      && DigitsDenote(line[122..], TruncScaled(r.aliquota, 2))
  {
    Pow10Values();
    var line := Encode54(r);
    Cut54("54", ZFill(r.cnpj, 14), FormatIntField(r.modelo, 2), PadText(r.serie, 3),
          FormatIntField(r.numero, 6), FormatIntField(r.cfop, 4), FormatIntField(r.cst, 3),
          FormatIntField(r.item, 3), PadText(r.codigo, 14), FormatScaled(r.quantidade, 3, 11),
          FormatScaled(r.valor, 2, 12), FormatScaled(r.desconto, 2, 12),
          FormatScaled(r.bcIcms, 2, 12), FormatScaled(r.bcIcmsSt, 2, 12),
          FormatScaled(r.valorIpi, 2, 12), FormatScaled(r.aliquota, 2, 4));
    IntColumn(r.modelo, 2, line[16..18]);
    PadTextBack(r.serie, 3, line[18..21]);
    IntColumn(r.numero, 6, line[21..27]);
    IntColumn(r.cfop, 4, line[27..31]);
    IntColumn(r.cst, 3, line[31..34]);
    IntColumn(r.item, 3, line[34..37]);
    PadTextBack(r.codigo, 14, line[37..51]);
    ScaledColumn(r.quantidade, 3, 11, line[51..62]);
    ScaledColumn(r.valor, 2, 12, line[62..74]);
    ScaledColumn(r.desconto, 2, 12, line[74..86]);
    ScaledColumn(r.bcIcms, 2, 12, line[86..98]);
    ScaledColumn(r.bcIcmsSt, 2, 12, line[98..110]);
    ScaledColumn(r.valorIpi, 2, 12, line[110..122]);
    ScaledColumn(r.aliquota, 2, 4, line[122..]);
  }

  // ---------------------------------------------------------------------
  // Registro 55

  /** Type 55, a GNRE payment slip of tax paid to another state. */
  datatype Registro55 = Registro55(
    cnpj: string,
    ie: string,
    data: Date,
    uf: string,
    ufFavorecida: string,
    banco: int,
    agencia: int,
    numero: int,
    valor: Dec,
    dataVencimento: Date,
    mesAnoReferencia: int,
    convenio: string)

  /** What constructing a `Registro55` guarantees of its fields. */
  predicate Valid55(r: Registro55) {
    && DigitCodeOk(r.cnpj, 14)
    && TextOk(r.ie, 0, 14)
    && UfOk(r.uf)
    && UfOk(r.ufFavorecida)
    && AmountOk(r.valor)
    && TextOk(r.convenio, 0, 30)
  }

  /** `Registro55(...)`: the fields validated in declaration order, the first
      failing one named in the error. It succeeds exactly when the record of
      the stripped (state codes also upper-cased) values is valid, and holds
      that record; a valid record comes back unchanged. */
  function Make55(cnpj: string, ie: string, data: Date, uf: string, ufFavorecida: string,
                  banco: int, agencia: int, numero: int, valor: Dec, dataVencimento: Date,
                  mesAnoReferencia: int, convenio: string)
    : (r: Result<Registro55>)
    ensures r.Ok? ==> Valid55(r.value)
    ensures var c := Registro55(cnpj, ie, data, uf, ufFavorecida, banco, agencia, numero, valor,
                dataVencimento, mesAnoReferencia, convenio);
            Valid55(c) ==> r == Ok(c)
    ensures var c := Registro55(Strip(cnpj), Strip(ie), data, Upper(Strip(uf)),
                Upper(Strip(ufFavorecida)), banco, agencia, numero, valor, dataVencimento,
                mesAnoReferencia, Strip(convenio));
            (r.Ok? <==> Valid55(c)) && (r.Ok? ==> r.value == c)
  {
    var cnpj' :- CheckDigitCode("cnpj", cnpj, 14);
    var ie' :- CheckText("ie", ie, 0, 14);
    var uf' :- CheckUf("uf", uf);
    var ufFavorecida' :- CheckUf("uf_favorecida", ufFavorecida);
    var valor' :- CheckAmount("valor", valor);
    var convenio' :- CheckText("convenio", convenio, 0, 30);
    Ok(Registro55(cnpj', ie', data, uf', ufFavorecida', banco, agencia, numero, valor',
      dataVencimento, mesAnoReferencia, convenio'))
  }

  /** The numbers of a `Registro55` fit their columns. */
  predicate Fits55(r: Registro55) {
    && IntFits(r.banco, 3)
    && IntFits(r.agencia, 4)
    && IntFits(r.numero, 20)
    && ScaledFits(r.valor, 2, 12)
    && IntFits(r.mesAnoReferencia, 6)
  }

  /** `Registro55.to_sintegra_line`, an f-string: the amount in cents,
      truncated; the line starts with "55" and has 125 characters. */
  function Encode55(r: Registro55): (line: string)
    ensures |line| >= 2 && line[..2] == "55"
  {
    var fields := ZFill(r.cnpj, 14) + PadText(r.ie, 14) + FormatDate(r.data) + r.uf +
      r.ufFavorecida + FormatIntField(r.banco, 3) + FormatIntField(r.agencia, 4) +
      FormatIntField(r.numero, 20) + FormatScaled(r.valor, 2, 12) + FormatDate(r.dataVencimento) +
      FormatIntField(r.mesAnoReferencia, 6) + PadText(r.convenio, 30);
    Cut2("55", fields);
    "55" + fields
  }

  /** Where each piece of a type 55 line starts and ends. */
  lemma Cut55(p1: string, p2: string, p3: string, p4: string, p5: string, p6: string, p7: string,
              p8: string, p9: string, p10: string, p11: string, p12: string, p13: string)
    requires |p1| == 2 && |p2| == 14 && |p3| == 14 && |p4| == 8 && |p5| == 2 && |p6| == 2 &&
      |p7| == 3 && |p8| == 4 && |p9| == 20 && |p10| == 12 && |p11| == 8 && |p12| == 6 &&
      |p13| == 30
    ensures var l := p1 + (p2 + p3 + p4 + p5 + p6 + p7 + p8 + p9 + p10 + p11 + p12 + p13);
      && |l| == 125 && l[2..16] == p2 && l[16..30] == p3 && l[30..38] == p4 && l[38..40] == p5 &&
      l[40..42] == p6 && l[42..45] == p7 && l[45..49] == p8 && l[49..69] == p9 &&
      l[69..81] == p10 && l[81..89] == p11 && l[89..95] == p12 && l[95..] == p13
  {
    var l := p1 + (p2 + p3 + p4 + p5 + p6 + p7 + p8 + p9 + p10 + p11 + p12 + p13);
    assert l[95..] == p13;
    assert l[89..95] == p12;
    assert l[81..89] == p11;
    assert l[69..81] == p10;
    assert l[49..69] == p9;
    assert l[45..49] == p8;
    assert l[42..45] == p7;
    assert l[40..42] == p6;
    assert l[38..40] == p5;
    assert l[30..38] == p4;
    assert l[16..30] == p3;
    assert l[2..16] == p2;
  }

  /** The columns of a type 55 line, read back: 125 characters in all. */
  lemma Layout55(r: Registro55)
    requires Valid55(r) && Fits55(r)
    ensures var line := Encode55(r);
      && |line| == 125
      && line[2..16] == r.cnpj
      && Strip(line[16..30]) == r.ie
      && ParseDate(line[30..38]) == Some(r.data)
      && line[38..40] == r.uf
      && line[40..42] == r.ufFavorecida
      && DigitsDenote(line[42..45], r.banco)
      && DigitsDenote(line[45..49], r.agencia)
      && DigitsDenote(line[49..69], r.numero)
      && DigitsDenote(line[69..81], TruncScaled(r.valor, 2))
      && ParseDate(line[81..89]) == Some(r.dataVencimento)
      && DigitsDenote(line[89..95], r.mesAnoReferencia)
      && Strip(line[95..]) == r.convenio
  {
    Pow10Values();
    var line := Encode55(r);
    Cut55("55", ZFill(r.cnpj, 14), PadText(r.ie, 14), FormatDate(r.data), r.uf, r.ufFavorecida,
          FormatIntField(r.banco, 3), FormatIntField(r.agencia, 4), FormatIntField(r.numero, 20),
          FormatScaled(r.valor, 2, 12), FormatDate(r.dataVencimento),
          FormatIntField(r.mesAnoReferencia, 6), PadText(r.convenio, 30));
    PadTextBack(r.ie, 14, line[16..30]);
    DateColumn(r.data, line[30..38]);
    IntColumn(r.banco, 3, line[42..45]);
    IntColumn(r.agencia, 4, line[45..49]);
    IntColumn(r.numero, 20, line[49..69]);
    ScaledColumn(r.valor, 2, 12, line[69..81]);
    DateColumn(r.dataVencimento, line[81..89]);
    IntColumn(r.mesAnoReferencia, 6, line[89..95]);
    PadTextBack(r.convenio, 30, line[95..]);
  }

}
