/** The records of exports: type 85 (the declaration) and 86 (its goods). */
module ExportRecords {
  import opened Text
  import opened Fields
  import opened Scan

  // ---------------------------------------------------------------------
  // Registro 85

  /** Type 85, an export declaration. */
  datatype Registro85 = Registro85(
    exportacao: int,
    dataDeclaracao: Date,
    natureza: int,
    registro: int,
    dataRegistro: Date,
    conhecimento: int,
    dataConhecimento: Date,
    tipoConhecimento: int,
    pais: int,
    dataAverbacao: Date,
    nfExportacao: int,
    dataEmissao: Date,
    modelo: string,
    serie: string)

  /** What constructing a `Registro85` guarantees of its fields. */
  predicate Valid85(r: Registro85) {
    && InRange(r.natureza, 1, 2)
    && TextOk(r.modelo, 0, 2)
    && TextOk(r.serie, 0, 3)
  }

  /** `Registro85(...)`: the fields validated in declaration order, the first
      failing one named in the error. It succeeds exactly when the record of
      the stripped (state codes also upper-cased) values is valid, and holds
      that record; a valid record comes back unchanged. */
  function Make85(exportacao: int, dataDeclaracao: Date, natureza: int, registro: int,
                  dataRegistro: Date, conhecimento: int, dataConhecimento: Date,
                  tipoConhecimento: int, pais: int, dataAverbacao: Date, nfExportacao: int,
                  dataEmissao: Date, modelo: string, serie: string)
    : (r: Result<Registro85>)
    ensures r.Ok? ==> Valid85(r.value)
    ensures var c := Registro85(exportacao, dataDeclaracao, natureza, registro, dataRegistro,
                conhecimento, dataConhecimento, tipoConhecimento, pais, dataAverbacao,
                nfExportacao, dataEmissao, modelo, serie);
            Valid85(c) ==> r == Ok(c)
    ensures var c := Registro85(exportacao, dataDeclaracao, natureza, registro, dataRegistro,
        conhecimento, dataConhecimento, tipoConhecimento, pais, dataAverbacao, nfExportacao,
        dataEmissao, Strip(modelo), Strip(serie));
      (r.Ok? <==> Valid85(c)) && (r.Ok? ==> r.value == c)
  {
    var natureza' :- CheckIntRange("natureza", natureza, 1, 2);
    var modelo' :- CheckText("modelo", modelo, 0, 2);
    var serie' :- CheckText("serie", serie, 0, 3);
    Ok(Registro85(exportacao, dataDeclaracao, natureza', registro, dataRegistro, conhecimento,
      dataConhecimento, tipoConhecimento, pais, dataAverbacao, nfExportacao, dataEmissao, modelo',
      serie'))
  }

  /** The numbers of a `Registro85` fit their columns. */
  predicate Fits85(r: Registro85) {
    && IntFits(r.exportacao, 11)
    && IntFits(r.registro, 12)
    && IntFits(r.conhecimento, 12)
    && IntFits(r.tipoConhecimento, 2)
    && IntFits(r.pais, 4)
    && IntFits(r.nfExportacao, 6)
  }

  /** `Registro85.to_sintegra_line`, an f-string: a reserved field of eight
      zeros; the line has 122 characters. */
  function Encode85(r: Registro85): (line: string)
    ensures |line| >= 2 && line[..2] == "85"
  {
    var fields := FormatIntField(r.exportacao, 11) + FormatDate(r.dataDeclaracao) +
      FormatIntField(r.natureza, 1) + FormatIntField(r.registro, 12) + FormatDate(r.dataRegistro) +
      FormatIntField(r.conhecimento, 12) + FormatDate(r.dataConhecimento) +
      FormatIntField(r.tipoConhecimento, 2) + FormatIntField(r.pais, 4) + FormatIntField(0, 8) +
      FormatDate(r.dataAverbacao) + FormatIntField(r.nfExportacao, 6) + FormatDate(r.dataEmissao) +
      PadText(r.modelo, 2) + PadText(r.serie, 3) + Spaces(19);
    Cut2("85", fields);
    "85" + fields
  }

  /** Where each piece of a type 85 line starts and ends. */
  lemma Cut85(p1: string, p2: string, p3: string, p4: string, p5: string, p6: string, p7: string,
              p8: string, p9: string, p10: string, p11: string, p12: string, p13: string,
              p14: string, p15: string, p16: string, p17: string)
    requires |p1| == 2 && |p2| == 11 && |p3| == 8 && |p4| == 1 && |p5| == 12 && |p6| == 8 &&
      |p7| == 12 && |p8| == 8 && |p9| == 2 && |p10| == 4 && |p11| == 8 && |p12| == 8 &&
      |p13| == 6 && |p14| == 8 && |p15| == 2 && |p16| == 3 && |p17| == 19
    ensures var l := p1 + (p2 + p3 + p4 + p5 + p6 + p7 + p8 + p9 + p10 + p11 + p12 + p13 + p14 +
      p15 + p16 + p17);
      && |l| == 122 && l[2..13] == p2 && l[13..21] == p3 && l[21..22] == p4 && l[22..34] == p5 &&
      l[34..42] == p6 && l[42..54] == p7 && l[54..62] == p8 && l[62..64] == p9 &&
      l[64..68] == p10 && l[68..76] == p11 && l[76..84] == p12 && l[84..90] == p13 &&
      l[90..98] == p14 && l[98..100] == p15 && l[100..103] == p16 && l[103..] == p17
  {
    var l := p1 + (p2 + p3 + p4 + p5 + p6 + p7 + p8 + p9 + p10 + p11 + p12 + p13 + p14 + p15 +
      p16 + p17);
    assert l[103..] == p17;
    assert l[100..103] == p16;
    assert l[98..100] == p15;
    assert l[90..98] == p14;
    assert l[84..90] == p13;
    assert l[76..84] == p12;
    assert l[68..76] == p11;
    assert l[64..68] == p10;
    assert l[62..64] == p9;
    assert l[54..62] == p8;
    assert l[42..54] == p7;
    assert l[34..42] == p6;
    assert l[22..34] == p5;
    assert l[21..22] == p4;
    assert l[13..21] == p3;
    assert l[2..13] == p2;
  }

  /** The columns of a type 85 line, read back: 122 characters in all. */
  lemma Layout85(r: Registro85)
    requires Valid85(r) && Fits85(r)
    ensures var line := Encode85(r);
      && |line| == 122
      && DigitsDenote(line[2..13], r.exportacao)
      && ParseDate(line[13..21]) == Some(r.dataDeclaracao)
      && DigitsDenote(line[21..22], r.natureza)
      && DigitsDenote(line[22..34], r.registro)
      && ParseDate(line[34..42]) == Some(r.dataRegistro)
      && DigitsDenote(line[42..54], r.conhecimento)
      && ParseDate(line[54..62]) == Some(r.dataConhecimento)
      && DigitsDenote(line[62..64], r.tipoConhecimento)
      && DigitsDenote(line[64..68], r.pais)
      && DigitsDenote(line[68..76], 0)
      && ParseDate(line[76..84]) == Some(r.dataAverbacao)
      && DigitsDenote(line[84..90], r.nfExportacao)
      && ParseDate(line[90..98]) == Some(r.dataEmissao)
      && Strip(line[98..100]) == r.modelo
      && Strip(line[100..103]) == r.serie
      && line[103..] == Spaces(19)
  {
    Pow10Values();
    var line := Encode85(r);
    Cut85("85", FormatIntField(r.exportacao, 11), FormatDate(r.dataDeclaracao),
          FormatIntField(r.natureza, 1), FormatIntField(r.registro, 12),
          FormatDate(r.dataRegistro), FormatIntField(r.conhecimento, 12),
          FormatDate(r.dataConhecimento), FormatIntField(r.tipoConhecimento, 2),
          FormatIntField(r.pais, 4), FormatIntField(0, 8), FormatDate(r.dataAverbacao),
          FormatIntField(r.nfExportacao, 6), FormatDate(r.dataEmissao), PadText(r.modelo, 2),
          PadText(r.serie, 3), Spaces(19));
    IntColumn(r.exportacao, 11, line[2..13]);
    DateColumn(r.dataDeclaracao, line[13..21]);
    IntColumn(r.natureza, 1, line[21..22]);
    IntColumn(r.registro, 12, line[22..34]);
    DateColumn(r.dataRegistro, line[34..42]);
    IntColumn(r.conhecimento, 12, line[42..54]);
    DateColumn(r.dataConhecimento, line[54..62]);
    IntColumn(r.tipoConhecimento, 2, line[62..64]);
    IntColumn(r.pais, 4, line[64..68]);
    IntColumn(0, 8, line[68..76]);
    DateColumn(r.dataAverbacao, line[76..84]);
    IntColumn(r.nfExportacao, 6, line[84..90]);
    DateColumn(r.dataEmissao, line[90..98]);
    PadTextBack(r.modelo, 2, line[98..100]);
    PadTextBack(r.serie, 3, line[100..103]);
  }

  // ---------------------------------------------------------------------
  // Registro 86

  /** Type 86, the goods of an export. */
  datatype Registro86 = Registro86(
    registro: int,
    dataRegistro: Date,
    cnpj: string,
    ie: string,
    uf: string,
    numero: int,
    dataEmissao: Date,
    modelo: string,
    serie: string,
    codigo: string,
    quantidade: Dec,
    valor: Dec,
    relacionamento: int)

  /** What constructing a `Registro86` guarantees of its fields. */
  predicate Valid86(r: Registro86) {
    && DigitCodeOk(r.cnpj, 14)
    && TextOk(r.ie, 0, 14)
    && UfOk(r.uf)
    && TextOk(r.modelo, 0, 2)
    && TextOk(r.serie, 0, 3)
    && TextOk(r.codigo, 0, 14)
    && AmountOk(r.quantidade)
    && AmountOk(r.valor)
  }

  /** `Registro86(...)`: the fields validated in declaration order, the first
      failing one named in the error. It succeeds exactly when the record of
      the stripped (state codes also upper-cased) values is valid, and holds
      that record; a valid record comes back unchanged. */
  function Make86(registro: int, dataRegistro: Date, cnpj: string, ie: string, uf: string,
                  numero: int, dataEmissao: Date, modelo: string, serie: string, codigo: string,
                  quantidade: Dec, valor: Dec, relacionamento: int)
    : (r: Result<Registro86>)
    ensures r.Ok? ==> Valid86(r.value)
    ensures var c := Registro86(registro, dataRegistro, cnpj, ie, uf, numero, dataEmissao, modelo,
                serie, codigo, quantidade, valor, relacionamento);
            Valid86(c) ==> r == Ok(c)
    ensures var c := Registro86(registro, dataRegistro, Strip(cnpj), Strip(ie), Upper(Strip(uf)),
        numero, dataEmissao, Strip(modelo), Strip(serie), Strip(codigo), quantidade, valor,
        relacionamento);
      (r.Ok? <==> Valid86(c)) && (r.Ok? ==> r.value == c)
  {
    var cnpj' :- CheckDigitCode("cnpj", cnpj, 14);
    var ie' :- CheckText("ie", ie, 0, 14);
    var uf' :- CheckUf("uf", uf);
    var modelo' :- CheckText("modelo", modelo, 0, 2);
    var serie' :- CheckText("serie", serie, 0, 3);
    var codigo' :- CheckText("codigo", codigo, 0, 14);
    var quantidade' :- CheckAmount("quantidade", quantidade);
    var valor' :- CheckAmount("valor", valor);
    Ok(Registro86(registro, dataRegistro, cnpj', ie', uf', numero, dataEmissao, modelo', serie',
      codigo', quantidade', valor', relacionamento))
  }

  /** The numbers of a `Registro86` fit their columns. */
  predicate Fits86(r: Registro86) {
    && IntFits(r.registro, 12)
    && IntFits(r.numero, 6)
    && ScaledFits(r.quantidade, 3, 13)
    && ScaledFits(r.valor, 2, 13)
    && IntFits(r.relacionamento, 1)
  }

  /** `Registro86.to_sintegra_line`, an f-string: the quantity in
      thousandths, the value in cents; the line has 117 characters. */
  function Encode86(r: Registro86): (line: string)
    ensures |line| >= 2 && line[..2] == "86"
  {
    var fields := FormatIntField(r.registro, 12) + FormatDate(r.dataRegistro) + ZFill(r.cnpj, 14) +
      PadText(r.ie, 14) + r.uf + FormatIntField(r.numero, 6) + FormatDate(r.dataEmissao) +
      PadText(r.modelo, 2) + PadText(r.serie, 3) + PadText(r.codigo, 14) +
      FormatScaled(r.quantidade, 3, 13) + FormatScaled(r.valor, 2, 13) +
      FormatIntField(r.relacionamento, 1) + Spaces(5);
    Cut2("86", fields);
    "86" + fields
  }

  /** Where each piece of a type 86 line starts and ends. */
  lemma Cut86(p1: string, p2: string, p3: string, p4: string, p5: string, p6: string, p7: string,
              p8: string, p9: string, p10: string, p11: string, p12: string, p13: string,
              p14: string, p15: string)
    requires |p1| == 2 && |p2| == 12 && |p3| == 8 && |p4| == 14 && |p5| == 14 && |p6| == 2 &&
      |p7| == 6 && |p8| == 8 && |p9| == 2 && |p10| == 3 && |p11| == 14 && |p12| == 13 &&
      |p13| == 13 && |p14| == 1 && |p15| == 5
    ensures var l := p1 + (p2 + p3 + p4 + p5 + p6 + p7 + p8 + p9 + p10 + p11 + p12 + p13 + p14 +
      p15);
      && |l| == 117 && l[2..14] == p2 && l[14..22] == p3 && l[22..36] == p4 && l[36..50] == p5 &&
      l[50..52] == p6 && l[52..58] == p7 && l[58..66] == p8 && l[66..68] == p9 &&
      l[68..71] == p10 && l[71..85] == p11 && l[85..98] == p12 && l[98..111] == p13 &&
      l[111..112] == p14 && l[112..] == p15
  {
    var l := p1 + (p2 + p3 + p4 + p5 + p6 + p7 + p8 + p9 + p10 + p11 + p12 + p13 + p14 + p15);
    assert l[112..] == p15;
    assert l[111..112] == p14;
    assert l[98..111] == p13;
    assert l[85..98] == p12;
    assert l[71..85] == p11;
    assert l[68..71] == p10;
    assert l[66..68] == p9;
    assert l[58..66] == p8;
    assert l[52..58] == p7;
    assert l[50..52] == p6;
    assert l[36..50] == p5;
    assert l[22..36] == p4;
    assert l[14..22] == p3;
    assert l[2..14] == p2;
  }

  /** The columns of a type 86 line, read back: 117 characters in all. */
  lemma Layout86(r: Registro86)
    requires Valid86(r) && Fits86(r)
    ensures var line := Encode86(r);
      && |line| == 117
      && DigitsDenote(line[2..14], r.registro)
      && ParseDate(line[14..22]) == Some(r.dataRegistro)
      && line[22..36] == r.cnpj
      && Strip(line[36..50]) == r.ie
      && line[50..52] == r.uf
      && DigitsDenote(line[52..58], r.numero)
      && ParseDate(line[58..66]) == Some(r.dataEmissao)
      && Strip(line[66..68]) == r.modelo
      && Strip(line[68..71]) == r.serie
      && Strip(line[71..85]) == r.codigo
      && DigitsDenote(line[85..98], TruncScaled(r.quantidade, 3))
      && DigitsDenote(line[98..111], TruncScaled(r.valor, 2))
      && DigitsDenote(line[111..112], r.relacionamento)
      && line[112..] == Spaces(5)
  {
    Pow10Values();
    var line := Encode86(r);
    Cut86("86", FormatIntField(r.registro, 12), FormatDate(r.dataRegistro), ZFill(r.cnpj, 14),
          PadText(r.ie, 14), r.uf, FormatIntField(r.numero, 6), FormatDate(r.dataEmissao),
          PadText(r.modelo, 2), PadText(r.serie, 3), PadText(r.codigo, 14),
          FormatScaled(r.quantidade, 3, 13), FormatScaled(r.valor, 2, 13),
          FormatIntField(r.relacionamento, 1), Spaces(5));
    IntColumn(r.registro, 12, line[2..14]);
    DateColumn(r.dataRegistro, line[14..22]);
    PadTextBack(r.ie, 14, line[36..50]);
    IntColumn(r.numero, 6, line[52..58]);
    DateColumn(r.dataEmissao, line[58..66]);
    PadTextBack(r.modelo, 2, line[66..68]);
    PadTextBack(r.serie, 3, line[68..71]);
    PadTextBack(r.codigo, 14, line[71..85]);
    ScaledColumn(r.quantidade, 3, 13, line[85..98]);
    ScaledColumn(r.valor, 2, 13, line[98..111]);
    IntColumn(r.relacionamento, 1, line[111..112]);
  }

}
