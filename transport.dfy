/** The records of services: type 70 (freight documents), 71 (the
    invoices they cover) and 76 (communication services). */
module TransportRecords {
  import opened Text
  import opened Fields
  import opened Scan

  // ---------------------------------------------------------------------
  // Registro 70

  /** Type 70, a freight document (transport services). */
  datatype Registro70 = Registro70(
    cnpj: string,
    ie: string,
    data: Date,
    uf: string,
    modelo: string,
    serie: string,
    subserie: string,
    numero: int,
    cfop: int,
    valorTotal: Dec,
    bcIcms: Dec,
    valorIcms: Dec,
    isenta: Dec,
    outras: Dec,
    cifFob: int,
    situacao: string)

  /** What constructing a `Registro70` guarantees of its fields. */
  predicate Valid70(r: Registro70) {
    && DigitCodeOk(r.cnpj, 14)
    && TextOk(r.ie, 0, 14)
    && UfOk(r.uf)
    && TextOk(r.modelo, 0, 2)
    && TextOk(r.serie, 0, 3)
    && TextOk(r.subserie, 0, 2)
    && InRange(r.cfop, 1000, 9999)
    && AmountOk(r.valorTotal)
    && AmountOk(r.bcIcms)
    && AmountOk(r.valorIcms)
    && AmountOk(r.isenta)
    && AmountOk(r.outras)
    && TextOk(r.situacao, 1, 1)
  }

  /** `Registro70(...)`: the fields validated in declaration order, the first
      failing one named in the error. It succeeds exactly when the record of
      the stripped (state codes also upper-cased) values is valid, and holds
      that record; a valid record comes back unchanged. */
  function Make70(cnpj: string, ie: string, data: Date, uf: string, modelo: string, serie: string,
                  subserie: string, numero: int, cfop: int, valorTotal: Dec, bcIcms: Dec,
                  valorIcms: Dec, isenta: Dec, outras: Dec, cifFob: int, situacao: string)
    : (r: Result<Registro70>)
    ensures r.Ok? ==> Valid70(r.value)
    ensures var c := Registro70(cnpj, ie, data, uf, modelo, serie, subserie, numero, cfop,
                valorTotal, bcIcms, valorIcms, isenta, outras, cifFob, situacao);
            Valid70(c) ==> r == Ok(c)
    ensures var c := Registro70(Strip(cnpj), Strip(ie), data, Upper(Strip(uf)), Strip(modelo),
                Strip(serie), Strip(subserie), numero, cfop, valorTotal, bcIcms, valorIcms, isenta, outras,
                cifFob, Strip(situacao));
            (r.Ok? <==> Valid70(c)) && (r.Ok? ==> r.value == c)
  {
    var cnpj' :- CheckDigitCode("cnpj", cnpj, 14);
    var ie' :- CheckText("ie", ie, 0, 14);
    var uf' :- CheckUf("uf", uf);
    var modelo' :- CheckText("modelo", modelo, 0, 2);
    var serie' :- CheckText("serie", serie, 0, 3);
    var subserie' :- CheckText("subserie", subserie, 0, 2);
    var cfop' :- CheckIntRange("cfop", cfop, 1000, 9999);
    var valorTotal' :- CheckAmount("valor_total", valorTotal);
    var bcIcms' :- CheckAmount("bc_icms", bcIcms);
    var valorIcms' :- CheckAmount("valor_icms", valorIcms);
    var isenta' :- CheckAmount("isenta", isenta);
    var outras' :- CheckAmount("outras", outras);
    var situacao' :- CheckText("situacao", situacao, 1, 1);
    Ok(Registro70(cnpj', ie', data, uf', modelo', serie', subserie', numero, cfop', valorTotal',
      bcIcms', valorIcms', isenta', outras', cifFob, situacao'))
  }

  /** The numbers of a `Registro70` fit their columns. */
  predicate Fits70(r: Registro70) {
    && IntFits(r.numero, 6)
    && ScaledFits(r.valorTotal, 2, 13)
    && ScaledFits(r.bcIcms, 2, 14)
    && ScaledFits(r.valorIcms, 2, 14)
    && ScaledFits(r.isenta, 2, 14)
    && ScaledFits(r.outras, 2, 13)
    && IntFits(r.cifFob, 2)
  }

  /** `Registro70.to_sintegra_line`, an f-string: amounts in cents,
      truncated; the line has 128 characters. */
  function Encode70(r: Registro70): (line: string)
    ensures |line| >= 2 && line[..2] == "70"
  {
    var fields := ZFill(r.cnpj, 14) + PadText(r.ie, 14) + FormatDate(r.data) + r.uf +
      PadText(r.modelo, 2) + PadText(r.serie, 3) + PadText(r.subserie, 2) +
      FormatIntField(r.numero, 6) + FormatIntField(r.cfop, 4) + FormatScaled(r.valorTotal, 2, 13) +
      FormatScaled(r.bcIcms, 2, 14) + FormatScaled(r.valorIcms, 2, 14) +
      FormatScaled(r.isenta, 2, 14) + FormatScaled(r.outras, 2, 13) + FormatIntField(r.cifFob, 2) +
      r.situacao;
    Cut2("70", fields);
    "70" + fields
  }

  /** Where each piece of a type 70 line starts and ends. */
  lemma Cut70(p1: string, p2: string, p3: string, p4: string, p5: string, p6: string, p7: string,
              p8: string, p9: string, p10: string, p11: string, p12: string, p13: string,
              p14: string, p15: string, p16: string, p17: string)
    requires |p1| == 2 && |p2| == 14 && |p3| == 14 && |p4| == 8 && |p5| == 2 && |p6| == 2 &&
      |p7| == 3 && |p8| == 2 && |p9| == 6 && |p10| == 4 && |p11| == 13 && |p12| == 14 &&
      |p13| == 14 && |p14| == 14 && |p15| == 13 && |p16| == 2 && |p17| == 1
    ensures var l := p1 + (p2 + p3 + p4 + p5 + p6 + p7 + p8 + p9 + p10 + p11 + p12 + p13 + p14 +
      p15 + p16 + p17);
      && |l| == 128 && l[2..16] == p2 && l[16..30] == p3 && l[30..38] == p4 && l[38..40] == p5 &&
      l[40..42] == p6 && l[42..45] == p7 && l[45..47] == p8 && l[47..53] == p9 &&
      l[53..57] == p10 && l[57..70] == p11 && l[70..84] == p12 && l[84..98] == p13 &&
      l[98..112] == p14 && l[112..125] == p15 && l[125..127] == p16 && l[127..] == p17
  {
    var l := p1 + (p2 + p3 + p4 + p5 + p6 + p7 + p8 + p9 + p10 + p11 + p12 + p13 + p14 + p15 +
      p16 + p17);
    assert l[127..] == p17;
    assert l[125..127] == p16;
    assert l[112..125] == p15;
    assert l[98..112] == p14;
    assert l[84..98] == p13;
    assert l[70..84] == p12;
    assert l[57..70] == p11;
    assert l[53..57] == p10;
    assert l[47..53] == p9;
    assert l[45..47] == p8;
    assert l[42..45] == p7;
    assert l[40..42] == p6;
    assert l[38..40] == p5;
    assert l[30..38] == p4;
    assert l[16..30] == p3;
    assert l[2..16] == p2;
  }

  /** The columns of a type 70 line, read back: 128 characters in all. */
  lemma Layout70(r: Registro70)
    requires Valid70(r) && Fits70(r)
    ensures var line := Encode70(r);
      && |line| == 128
      && line[2..16] == r.cnpj
      && Strip(line[16..30]) == r.ie
      && ParseDate(line[30..38]) == Some(r.data)
      && line[38..40] == r.uf
      && Strip(line[40..42]) == r.modelo
      && Strip(line[42..45]) == r.serie
      && Strip(line[45..47]) == r.subserie
      && DigitsDenote(line[47..53], r.numero)
      && DigitsDenote(line[53..57], r.cfop)
      && DigitsDenote(line[57..70], TruncScaled(r.valorTotal, 2))
      && DigitsDenote(line[70..84], TruncScaled(r.bcIcms, 2))
      && DigitsDenote(line[84..98], TruncScaled(r.valorIcms, 2))
      && DigitsDenote(line[98..112], TruncScaled(r.isenta, 2))
      && DigitsDenote(line[112..125], TruncScaled(r.outras, 2))
      && DigitsDenote(line[125..127], r.cifFob)
      && line[127..] == r.situacao
  {
    Pow10Values();
    var line := Encode70(r);
    Cut70("70", ZFill(r.cnpj, 14), PadText(r.ie, 14), FormatDate(r.data), r.uf,
          PadText(r.modelo, 2), PadText(r.serie, 3), PadText(r.subserie, 2),
          FormatIntField(r.numero, 6), FormatIntField(r.cfop, 4),
          FormatScaled(r.valorTotal, 2, 13), FormatScaled(r.bcIcms, 2, 14),
          FormatScaled(r.valorIcms, 2, 14), FormatScaled(r.isenta, 2, 14),
          FormatScaled(r.outras, 2, 13), FormatIntField(r.cifFob, 2), r.situacao);
    PadTextBack(r.ie, 14, line[16..30]);
    DateColumn(r.data, line[30..38]);
    PadTextBack(r.modelo, 2, line[40..42]);
    PadTextBack(r.serie, 3, line[42..45]);
    PadTextBack(r.subserie, 2, line[45..47]);
    IntColumn(r.numero, 6, line[47..53]);
    IntColumn(r.cfop, 4, line[53..57]);
    ScaledColumn(r.valorTotal, 2, 13, line[57..70]);
    ScaledColumn(r.bcIcms, 2, 14, line[70..84]);
    ScaledColumn(r.valorIcms, 2, 14, line[84..98]);
    ScaledColumn(r.isenta, 2, 14, line[98..112]);
    ScaledColumn(r.outras, 2, 13, line[112..125]);
    IntColumn(r.cifFob, 2, line[125..127]);
  }

  // ---------------------------------------------------------------------
  // Registro 71

  /** Type 71, the invoices a freight document covers. */
  datatype Registro71 = Registro71(
    cnpjTomador: string,
    ieTomador: string,
    data: Date,
    ufTomador: string,
    modelo: string,
    serie: string,
    subserie: string,
    numero: int,
    ufRemetente: string,
    cnpjRemetente: string,
    ieRemetente: string,
    dataNf: Date,
    modeloNf: string,
    serieNf: string,
    numeroNf: int,
    valorTotal: Dec)

  /** What constructing a `Registro71` guarantees of its fields. */
  predicate Valid71(r: Registro71) {
    && DigitCodeOk(r.cnpjTomador, 14)
    && TextOk(r.ieTomador, 0, 14)
    && UfOk(r.ufTomador)
    && TextOk(r.modelo, 0, 2)
    && TextOk(r.serie, 0, 3)
    && TextOk(r.subserie, 0, 2)
    && UfOk(r.ufRemetente)
    && DigitCodeOk(r.cnpjRemetente, 14)
    && TextOk(r.ieRemetente, 0, 14)
    && TextOk(r.modeloNf, 0, 2)
    && TextOk(r.serieNf, 0, 3)
    && AmountOk(r.valorTotal)
  }

  /** `Registro71(...)`: the fields validated in declaration order, the first
      failing one named in the error. It succeeds exactly when the record of
      the stripped (state codes also upper-cased) values is valid, and holds
      that record; a valid record comes back unchanged. */
  function Make71(cnpjTomador: string, ieTomador: string, data: Date, ufTomador: string,
                  modelo: string, serie: string, subserie: string, numero: int,
                  ufRemetente: string, cnpjRemetente: string, ieRemetente: string, dataNf: Date,
                  modeloNf: string, serieNf: string, numeroNf: int, valorTotal: Dec)
    : (r: Result<Registro71>)
    ensures r.Ok? ==> Valid71(r.value)
    ensures var c := Registro71(cnpjTomador, ieTomador, data, ufTomador, modelo, serie, subserie,
                numero, ufRemetente, cnpjRemetente, ieRemetente, dataNf, modeloNf, serieNf,
                numeroNf, valorTotal);
            Valid71(c) ==> r == Ok(c)
    ensures var c := Registro71(Strip(cnpjTomador), Strip(ieTomador), data,
                Upper(Strip(ufTomador)), Strip(modelo), Strip(serie), Strip(subserie), numero,
                Upper(Strip(ufRemetente)), Strip(cnpjRemetente), Strip(ieRemetente), dataNf,
                Strip(modeloNf), Strip(serieNf), numeroNf, valorTotal);
            (r.Ok? <==> Valid71(c)) && (r.Ok? ==> r.value == c)
  {
    var cnpjTomador' :- CheckDigitCode("cnpj_tomador", cnpjTomador, 14);
    var ieTomador' :- CheckText("ie_tomador", ieTomador, 0, 14);
    var ufTomador' :- CheckUf("uf_tomador", ufTomador);
    var modelo' :- CheckText("modelo", modelo, 0, 2);
    var serie' :- CheckText("serie", serie, 0, 3);
    var subserie' :- CheckText("subserie", subserie, 0, 2);
    var ufRemetente' :- CheckUf("uf_remetente", ufRemetente);
    var cnpjRemetente' :- CheckDigitCode("cnpj_remetente", cnpjRemetente, 14);
    var ieRemetente' :- CheckText("ie_remetente", ieRemetente, 0, 14);
    var modeloNf' :- CheckText("modelo_nf", modeloNf, 0, 2);
    var serieNf' :- CheckText("serie_nf", serieNf, 0, 3);
    var valorTotal' :- CheckAmount("valor_total", valorTotal);
    Ok(Registro71(cnpjTomador', ieTomador', data, ufTomador', modelo', serie', subserie', numero,
      ufRemetente', cnpjRemetente', ieRemetente', dataNf, modeloNf', serieNf', numeroNf,
      valorTotal'))
  }

  /** The numbers of a `Registro71` fit their columns. */
  predicate Fits71(r: Registro71) {
    && IntFits(r.numero, 6)
    && IntFits(r.numeroNf, 6)
    && ScaledFits(r.valorTotal, 2, 14)
  }

  /** `Registro71.to_sintegra_line`, an f-string; the line has 128
      characters. */
  function Encode71(r: Registro71): (line: string)
    ensures |line| >= 2 && line[..2] == "71"
  {
    var fields := ZFill(r.cnpjTomador, 14) + PadText(r.ieTomador, 14) + FormatDate(r.data) +
      r.ufTomador + PadText(r.modelo, 2) + PadText(r.serie, 3) + PadText(r.subserie, 2) +
      FormatIntField(r.numero, 6) + r.ufRemetente + ZFill(r.cnpjRemetente, 14) +
      PadText(r.ieRemetente, 14) + FormatDate(r.dataNf) + PadText(r.modeloNf, 2) +
      PadText(r.serieNf, 3) + FormatIntField(r.numeroNf, 6) + FormatScaled(r.valorTotal, 2, 14) +
      Spaces(12);
    Cut2("71", fields);
    "71" + fields
  }

  /** Where each piece of a type 71 line starts and ends. */
  lemma Cut71(p1: string, p2: string, p3: string, p4: string, p5: string, p6: string, p7: string,
              p8: string, p9: string, p10: string, p11: string, p12: string, p13: string,
              p14: string, p15: string, p16: string, p17: string, p18: string)
    requires |p1| == 2 && |p2| == 14 && |p3| == 14 && |p4| == 8 && |p5| == 2 && |p6| == 2 &&
      |p7| == 3 && |p8| == 2 && |p9| == 6 && |p10| == 2 && |p11| == 14 && |p12| == 14 &&
      |p13| == 8 && |p14| == 2 && |p15| == 3 && |p16| == 6 && |p17| == 14 && |p18| == 12
    ensures var l := p1 + (p2 + p3 + p4 + p5 + p6 + p7 + p8 + p9 + p10 + p11 + p12 + p13 + p14 +
      p15 + p16 + p17 + p18);
      && |l| == 128 && l[2..16] == p2 && l[16..30] == p3 && l[30..38] == p4 && l[38..40] == p5 &&
      l[40..42] == p6 && l[42..45] == p7 && l[45..47] == p8 && l[47..53] == p9 &&
      l[53..55] == p10 && l[55..69] == p11 && l[69..83] == p12 && l[83..91] == p13 &&
      l[91..93] == p14 && l[93..96] == p15 && l[96..102] == p16 && l[102..116] == p17 &&
      l[116..] == p18
  {
    var l := p1 + (p2 + p3 + p4 + p5 + p6 + p7 + p8 + p9 + p10 + p11 + p12 + p13 + p14 + p15 +
      p16 + p17 + p18);
    assert l[116..] == p18;
    assert l[102..116] == p17;
    assert l[96..102] == p16;
    assert l[93..96] == p15;
    assert l[91..93] == p14;
    assert l[83..91] == p13;
    assert l[69..83] == p12;
    assert l[55..69] == p11;
    assert l[53..55] == p10;
    assert l[47..53] == p9;
    assert l[45..47] == p8;
    assert l[42..45] == p7;
    assert l[40..42] == p6;
    assert l[38..40] == p5;
    assert l[30..38] == p4;
    assert l[16..30] == p3;
    assert l[2..16] == p2;
  }

  /** The columns of a type 71 line, read back: 128 characters in all. */
  lemma Layout71(r: Registro71)
    requires Valid71(r) && Fits71(r)
    ensures var line := Encode71(r);
      && |line| == 128
      && line[2..16] == r.cnpjTomador
      && Strip(line[16..30]) == r.ieTomador
      && ParseDate(line[30..38]) == Some(r.data)
      && line[38..40] == r.ufTomador
      && Strip(line[40..42]) == r.modelo
      && Strip(line[42..45]) == r.serie
      && Strip(line[45..47]) == r.subserie
      && DigitsDenote(line[47..53], r.numero)
      && line[53..55] == r.ufRemetente
      && line[55..69] == r.cnpjRemetente
      && Strip(line[69..83]) == r.ieRemetente
      && ParseDate(line[83..91]) == Some(r.dataNf)
      && Strip(line[91..93]) == r.modeloNf
      && Strip(line[93..96]) == r.serieNf
      && DigitsDenote(line[96..102], r.numeroNf)
      && DigitsDenote(line[102..116], TruncScaled(r.valorTotal, 2))
      && line[116..] == Spaces(12)
  {
    Pow10Values();
    var line := Encode71(r);
    Cut71("71", ZFill(r.cnpjTomador, 14), PadText(r.ieTomador, 14), FormatDate(r.data),
          r.ufTomador, PadText(r.modelo, 2), PadText(r.serie, 3), PadText(r.subserie, 2),
          FormatIntField(r.numero, 6), r.ufRemetente, ZFill(r.cnpjRemetente, 14),
          PadText(r.ieRemetente, 14), FormatDate(r.dataNf), PadText(r.modeloNf, 2),
          PadText(r.serieNf, 3), FormatIntField(r.numeroNf, 6), FormatScaled(r.valorTotal, 2, 14),
          Spaces(12));
    PadTextBack(r.ieTomador, 14, line[16..30]);
    DateColumn(r.data, line[30..38]);
    PadTextBack(r.modelo, 2, line[40..42]);
    PadTextBack(r.serie, 3, line[42..45]);
    PadTextBack(r.subserie, 2, line[45..47]);
    IntColumn(r.numero, 6, line[47..53]);
    PadTextBack(r.ieRemetente, 14, line[69..83]);
    DateColumn(r.dataNf, line[83..91]);
    PadTextBack(r.modeloNf, 2, line[91..93]);
    PadTextBack(r.serieNf, 3, line[93..96]);
    IntColumn(r.numeroNf, 6, line[96..102]);
    ScaledColumn(r.valorTotal, 2, 14, line[102..116]);
  }

  // ---------------------------------------------------------------------
  // Registro 76

  /** Type 76, a communication or telecommunication service invoice. */
  datatype Registro76 = Registro76(
    cnpj: string,
    ie: string,
    modelo: string,
    serie: string,
    subserie: string,
    numero: int,
    cfop: int,
    tipoReceita: int,
    data: Date,
    uf: string,
    valorTotal: Dec,
    bcIcms: Dec,
    valorIcms: Dec,
    isenta: Dec,
    outras: Dec,
    aliquota: int,
    situacao: string)

  /** What constructing a `Registro76` guarantees of its fields. */
  predicate Valid76(r: Registro76) {
    && DigitCodeOk(r.cnpj, 14)
    && TextOk(r.ie, 0, 14)
    && TextOk(r.modelo, 0, 2)
    && TextOk(r.serie, 0, 3)
    && TextOk(r.subserie, 0, 2)
    && InRange(r.cfop, 1000, 9999)
    && UfOk(r.uf)
    && AmountOk(r.valorTotal)
    && AmountOk(r.bcIcms)
    && AmountOk(r.valorIcms)
    && AmountOk(r.isenta)
    && AmountOk(r.outras)
    && InRange(r.aliquota, 0, 100)
    && TextOk(r.situacao, 1, 1)
  }

  /** `Registro76(...)`: the fields validated in declaration order, the first
      failing one named in the error. It succeeds exactly when the record of
      the stripped (state codes also upper-cased) values is valid, and holds
      that record; a valid record comes back unchanged. */
  function Make76(cnpj: string, ie: string, modelo: string, serie: string, subserie: string,
                  numero: int, cfop: int, tipoReceita: int, data: Date, uf: string,
                  valorTotal: Dec, bcIcms: Dec, valorIcms: Dec, isenta: Dec, outras: Dec,
                  aliquota: int, situacao: string)
    : (r: Result<Registro76>)
    ensures r.Ok? ==> Valid76(r.value)
    ensures var c := Registro76(cnpj, ie, modelo, serie, subserie, numero, cfop, tipoReceita, data,
                uf, valorTotal, bcIcms, valorIcms, isenta, outras, aliquota, situacao);
            Valid76(c) ==> r == Ok(c)
    ensures var c := Registro76(Strip(cnpj), Strip(ie), Strip(modelo), Strip(serie),
                Strip(subserie), numero, cfop, tipoReceita, data, Upper(Strip(uf)), valorTotal, bcIcms,
                valorIcms, isenta, outras, aliquota, Strip(situacao));
            (r.Ok? <==> Valid76(c)) && (r.Ok? ==> r.value == c)
  {
    var cnpj' :- CheckDigitCode("cnpj", cnpj, 14);
    var ie' :- CheckText("ie", ie, 0, 14);
    var modelo' :- CheckText("modelo", modelo, 0, 2);
    var serie' :- CheckText("serie", serie, 0, 3);
    var subserie' :- CheckText("subserie", subserie, 0, 2);
    var cfop' :- CheckIntRange("cfop", cfop, 1000, 9999);
    var uf' :- CheckUf("uf", uf);
    var valorTotal' :- CheckAmount("valor_total", valorTotal);
    var bcIcms' :- CheckAmount("bc_icms", bcIcms);
    var valorIcms' :- CheckAmount("valor_icms", valorIcms);
    var isenta' :- CheckAmount("isenta", isenta);
    var outras' :- CheckAmount("outras", outras);
    var aliquota' :- CheckIntRange("aliquota", aliquota, 0, 100);
    var situacao' :- CheckText("situacao", situacao, 1, 1);
    Ok(Registro76(cnpj', ie', modelo', serie', subserie', numero, cfop', tipoReceita, data, uf',
      valorTotal', bcIcms', valorIcms', isenta', outras', aliquota', situacao'))
  }

  /** The numbers of a `Registro76` fit their columns. */
  predicate Fits76(r: Registro76) {
    && IntFits(r.numero, 6)
    && IntFits(r.tipoReceita, 1)
    && ScaledFits(r.valorTotal, 2, 13)
    && ScaledFits(r.bcIcms, 2, 13)
    && ScaledFits(r.valorIcms, 2, 12)
    && ScaledFits(r.isenta, 2, 12)
    && ScaledFits(r.outras, 2, 12)
    && IntFits(r.aliquota, 2)
  }

  /** `Registro76.to_sintegra_line`, an f-string: amounts in cents,
      truncated, the rate a whole number; the line has 123 characters. */
  function Encode76(r: Registro76): (line: string)
    ensures |line| >= 2 && line[..2] == "76"
  {
    var fields := ZFill(r.cnpj, 14) + PadText(r.ie, 14) + PadText(r.modelo, 2) +
      PadText(r.serie, 3) + PadText(r.subserie, 2) + FormatIntField(r.numero, 6) +
      FormatIntField(r.cfop, 4) + FormatIntField(r.tipoReceita, 1) + FormatDate(r.data) + r.uf +
      FormatScaled(r.valorTotal, 2, 13) + FormatScaled(r.bcIcms, 2, 13) +
      FormatScaled(r.valorIcms, 2, 12) + FormatScaled(r.isenta, 2, 12) +
      FormatScaled(r.outras, 2, 12) + FormatIntField(r.aliquota, 2) + r.situacao;
    Cut2("76", fields);
    "76" + fields
  }

  /** Where each piece of a type 76 line starts and ends. */
  lemma Cut76(p1: string, p2: string, p3: string, p4: string, p5: string, p6: string, p7: string,
              p8: string, p9: string, p10: string, p11: string, p12: string, p13: string,
              p14: string, p15: string, p16: string, p17: string, p18: string)
    requires |p1| == 2 && |p2| == 14 && |p3| == 14 && |p4| == 2 && |p5| == 3 && |p6| == 2 &&
      |p7| == 6 && |p8| == 4 && |p9| == 1 && |p10| == 8 && |p11| == 2 && |p12| == 13 &&
      |p13| == 13 && |p14| == 12 && |p15| == 12 && |p16| == 12 && |p17| == 2 && |p18| == 1
    ensures var l := p1 + (p2 + p3 + p4 + p5 + p6 + p7 + p8 + p9 + p10 + p11 + p12 + p13 + p14 +
      p15 + p16 + p17 + p18);
      && |l| == 123 && l[2..16] == p2 && l[16..30] == p3 && l[30..32] == p4 && l[32..35] == p5 &&
      l[35..37] == p6 && l[37..43] == p7 && l[43..47] == p8 && l[47..48] == p9 &&
      l[48..56] == p10 && l[56..58] == p11 && l[58..71] == p12 && l[71..84] == p13 &&
      l[84..96] == p14 && l[96..108] == p15 && l[108..120] == p16 && l[120..122] == p17 &&
      l[122..] == p18
  {
    var l := p1 + (p2 + p3 + p4 + p5 + p6 + p7 + p8 + p9 + p10 + p11 + p12 + p13 + p14 + p15 +
      p16 + p17 + p18);
    assert l[122..] == p18;
    assert l[120..122] == p17;
    assert l[108..120] == p16;
    assert l[96..108] == p15;
    assert l[84..96] == p14;
    assert l[71..84] == p13;
    assert l[58..71] == p12;
    assert l[56..58] == p11;
    assert l[48..56] == p10;
    assert l[47..48] == p9;
    assert l[43..47] == p8;
    assert l[37..43] == p7;
    assert l[35..37] == p6;
    assert l[32..35] == p5;
    assert l[30..32] == p4;
    assert l[16..30] == p3;
    assert l[2..16] == p2;
  }

  /** The columns of a type 76 line, read back: 123 characters in all. */
  lemma Layout76(r: Registro76)
    requires Valid76(r) && Fits76(r)
    ensures var line := Encode76(r);
      && |line| == 123
      && line[2..16] == r.cnpj
      && Strip(line[16..30]) == r.ie
      && Strip(line[30..32]) == r.modelo
      && Strip(line[32..35]) == r.serie
      && Strip(line[35..37]) == r.subserie
      && DigitsDenote(line[37..43], r.numero)
      && DigitsDenote(line[43..47], r.cfop)
      && DigitsDenote(line[47..48], r.tipoReceita)
      && ParseDate(line[48..56]) == Some(r.data)
      && line[56..58] == r.uf
      && DigitsDenote(line[58..71], TruncScaled(r.valorTotal, 2))
      && DigitsDenote(line[71..84], TruncScaled(r.bcIcms, 2))
      && DigitsDenote(line[84..96], TruncScaled(r.valorIcms, 2))
      && DigitsDenote(line[96..108], TruncScaled(r.isenta, 2))
      && DigitsDenote(line[108..120], TruncScaled(r.outras, 2))
      && DigitsDenote(line[120..122], r.aliquota)
      && line[122..] == r.situacao
  {
    Pow10Values();
    var line := Encode76(r);
    Cut76("76", ZFill(r.cnpj, 14), PadText(r.ie, 14), PadText(r.modelo, 2), PadText(r.serie, 3),
          PadText(r.subserie, 2), FormatIntField(r.numero, 6), FormatIntField(r.cfop, 4),
          FormatIntField(r.tipoReceita, 1), FormatDate(r.data), r.uf,
          FormatScaled(r.valorTotal, 2, 13), FormatScaled(r.bcIcms, 2, 13),
          FormatScaled(r.valorIcms, 2, 12), FormatScaled(r.isenta, 2, 12),
          FormatScaled(r.outras, 2, 12), FormatIntField(r.aliquota, 2), r.situacao);
    PadTextBack(r.ie, 14, line[16..30]);
    PadTextBack(r.modelo, 2, line[30..32]);
    PadTextBack(r.serie, 3, line[32..35]);
    PadTextBack(r.subserie, 2, line[35..37]);
    IntColumn(r.numero, 6, line[37..43]);
    IntColumn(r.cfop, 4, line[43..47]);
    IntColumn(r.tipoReceita, 1, line[47..48]);
    DateColumn(r.data, line[48..56]);
    ScaledColumn(r.valorTotal, 2, 13, line[58..71]);
    ScaledColumn(r.bcIcms, 2, 13, line[71..84]);
    ScaledColumn(r.valorIcms, 2, 12, line[84..96]);
    ScaledColumn(r.isenta, 2, 12, line[96..108]);
    ScaledColumn(r.outras, 2, 12, line[108..120]);
    IntColumn(r.aliquota, 2, line[120..122]);
  }

}
