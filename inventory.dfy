/** The records of goods: type 74 (inventory) and 75 (product codes), both
    built from the shared formatters. */
module InventoryRecords {
  import opened Text
  import opened Fields
  import opened Scan

  // ---------------------------------------------------------------------
  // Registro 74

  /** Type 74, one product of the inventory. */
  datatype Registro74 = Registro74(
    data: Date,
    codigo: string,
    quantidade: Dec,
    valor: Dec,
    posse: string,
    cnpj: string,
    ie: string,
    uf: string)

  /** What constructing a `Registro74` guarantees of its fields. */
  predicate Valid74(r: Registro74) {
    && TextOk(r.codigo, 0, 14)
    && AmountOk(r.quantidade)
    && AmountOk(r.valor)
    && TextOk(r.posse, 1, 1)
    && DigitCodeOk(r.cnpj, 14)
    && TextOk(r.ie, 0, 14)
    && UfOk(r.uf)
  }

  /** `Registro74(...)`: the fields validated in declaration order, the first
      failing one named in the error. It succeeds exactly when the record of
      the stripped (state codes also upper-cased) values is valid, and holds
      that record; a valid record comes back unchanged. */
  function Make74(data: Date, codigo: string, quantidade: Dec, valor: Dec, posse: string,
                  cnpj: string, ie: string, uf: string)
    : (r: Result<Registro74>)
    ensures r.Ok? ==> Valid74(r.value)
    ensures var c := Registro74(data, codigo, quantidade, valor, posse, cnpj, ie, uf);
            Valid74(c) ==> r == Ok(c)
    ensures var c := Registro74(data, Strip(codigo), quantidade, valor, Strip(posse), Strip(cnpj),
        Strip(ie), Upper(Strip(uf)));
      (r.Ok? <==> Valid74(c)) && (r.Ok? ==> r.value == c)
  {
    var codigo' :- CheckText("codigo", codigo, 0, 14);
    var quantidade' :- CheckAmount("quantidade", quantidade);
    var valor' :- CheckAmount("valor", valor);
    var posse' :- CheckText("posse", posse, 1, 1);
    var cnpj' :- CheckDigitCode("cnpj", cnpj, 14);
    var ie' :- CheckText("ie", ie, 0, 14);
    var uf' :- CheckUf("uf", uf);
    Ok(Registro74(data, codigo', quantidade', valor', posse', cnpj', ie', uf'))
  }

  /** The numbers of a `Registro74` fit their columns. */
  predicate Fits74(r: Registro74) {
    && NumericFits(r.quantidade, 13, 3)
    && NumericFits(r.valor, 13, 2)
  }

  /** `Registro74.to_sintegra_line`: the shared formatters; the quantity
      with three decimal places, the value with two. */
  function Encode74(r: Registro74): (line: string)
    ensures |line| >= 2 && line[..2] == "74"
  {
    var head := FormatText("74", 2);
    assert head == "74";
    var fields := FormatDate(r.data) + FormatText(r.codigo, 14) +
      FormatNumeric(r.quantidade, 13, 3) + FormatNumeric(r.valor, 13, 2) + FormatText(r.posse, 1) +
      FormatDigitCode(r.cnpj, 14) + FormatText(r.ie, 14) + FormatText(r.uf, 2) + FormatText("", 45);
    Cut2(head, fields);
    head + fields
  }

  /** Where each piece of a type 74 line starts and ends. */
  lemma Cut74(p1: string, p2: string, p3: string, p4: string, p5: string, p6: string, p7: string,
              p8: string, p9: string, p10: string)
    requires |p1| == 2 && |p2| == 8 && |p3| == 14 && |p4| == 13 && |p5| == 13 && |p6| == 1 &&
      |p7| == 14 && |p8| == 14 && |p9| == 2 && |p10| == 45
    ensures var l := p1 + (p2 + p3 + p4 + p5 + p6 + p7 + p8 + p9 + p10);
      && |l| == 126 && l[2..10] == p2 && l[10..24] == p3 && l[24..37] == p4 && l[37..50] == p5 &&
      l[50..51] == p6 && l[51..65] == p7 && l[65..79] == p8 && l[79..81] == p9 && l[81..] == p10
  {
    var l := p1 + (p2 + p3 + p4 + p5 + p6 + p7 + p8 + p9 + p10);
    assert l[81..] == p10;
    assert l[79..81] == p9;
    assert l[65..79] == p8;
    assert l[51..65] == p7;
    assert l[50..51] == p6;
    assert l[37..50] == p5;
    assert l[24..37] == p4;
    assert l[10..24] == p3;
    assert l[2..10] == p2;
  }

  /** The columns of a type 74 line, read back: 126 characters in all. */
  lemma Layout74(r: Registro74)
    requires Valid74(r) && Fits74(r)
    ensures var line := Encode74(r);
      && |line| == 126
      && ParseDate(line[2..10]) == Some(r.data)
      && Strip(line[10..24]) == r.codigo
      && DigitsDenote(line[24..37], WrittenValue(r.quantidade, 3))
      && DigitsDenote(line[37..50], WrittenValue(r.valor, 2))
      && line[50..51] == r.posse
      && line[51..65] == r.cnpj
      && Strip(line[65..79]) == r.ie
      && line[79..81] == r.uf
      && line[81..] == Spaces(45)
  {
    Pow10Values();
    assert FormatText("74", 2) == "74";
    var line := Encode74(r);
    Cut74("74", FormatDate(r.data), FormatText(r.codigo, 14), FormatNumeric(r.quantidade, 13, 3),
          FormatNumeric(r.valor, 13, 2), FormatText(r.posse, 1), FormatDigitCode(r.cnpj, 14),
          FormatText(r.ie, 14), FormatText(r.uf, 2), FormatText("", 45));
    DateColumn(r.data, line[2..10]);
    FormatTextBack(r.codigo, 14, line[10..24]);
    NumericColumn(r.quantidade, 13, 3, line[24..37]);
    NumericColumn(r.valor, 13, 2, line[37..50]);
    FormatTextExact(r.posse, 1, line[50..51]);
    FormatTextBack(r.ie, 14, line[65..79]);
    FormatTextExact(r.uf, 2, line[79..81]);
  }

  // ---------------------------------------------------------------------
  // Registro 75

  /** Type 75, a product or service code used in the other records. */
  datatype Registro75 = Registro75(
    dataInicial: Date,
    dataFinal: Date,
    codigo: string,
    ncm: string,
    descricao: string,
    unCom: string,
    valorIpi: Dec,
    valorIcms: Dec,
    redBcIcms: Dec,
    valorBcSt: Dec)

  /** What constructing a `Registro75` guarantees of its fields. */
  predicate Valid75(r: Registro75) {
    && TextOk(r.codigo, 0, 14)
    && DigitCodeOk(r.ncm, 8)
    && TextOk(r.descricao, 0, 53)
    && TextOk(r.unCom, 0, 6)
    && AmountAtMost(r.valorIpi, 100)
    && AmountAtMost(r.valorIcms, 100)
    && AmountAtMost(r.redBcIcms, 100)
    && AmountOk(r.valorBcSt)
  }

  /** `Registro75(...)`: the fields validated in declaration order, the first
      failing one named in the error. It succeeds exactly when the record of
      the stripped (state codes also upper-cased) values is valid, and holds
      that record; a valid record comes back unchanged. */
  function Make75(dataInicial: Date, dataFinal: Date, codigo: string, ncm: string,
                  descricao: string, unCom: string, valorIpi: Dec, valorIcms: Dec, redBcIcms: Dec,
                  valorBcSt: Dec)
    : (r: Result<Registro75>)
    ensures r.Ok? ==> Valid75(r.value)
    ensures var c := Registro75(dataInicial, dataFinal, codigo, ncm, descricao, unCom, valorIpi,
                valorIcms, redBcIcms, valorBcSt);
            Valid75(c) ==> r == Ok(c)
    ensures var c := Registro75(dataInicial, dataFinal, Strip(codigo), Strip(ncm),
        Strip(descricao), Strip(unCom), valorIpi, valorIcms, redBcIcms, valorBcSt);
      (r.Ok? <==> Valid75(c)) && (r.Ok? ==> r.value == c)
  {
    var codigo' :- CheckText("codigo", codigo, 0, 14);
    var ncm' :- CheckDigitCode("ncm", ncm, 8);
    var descricao' :- CheckText("descricao", descricao, 0, 53);
    var unCom' :- CheckText("un_com", unCom, 0, 6);
    var valorIpi' :- CheckAmountAtMost("valor_ipi", valorIpi, 100);
    var valorIcms' :- CheckAmountAtMost("valor_icms", valorIcms, 100);
    var redBcIcms' :- CheckAmountAtMost("red_bc_icms", redBcIcms, 100);
    var valorBcSt' :- CheckAmount("valor_bc_st", valorBcSt);
    Ok(Registro75(dataInicial, dataFinal, codigo', ncm', descricao', unCom', valorIpi', valorIcms',
      redBcIcms', valorBcSt'))
  }

  /** The numbers of a `Registro75` fit their columns. */
  predicate Fits75(r: Registro75) {
    && NumericFits(r.valorIpi, 5, 2)
    && NumericFits(r.valorIcms, 4, 2)
    && NumericFits(r.redBcIcms, 5, 2)
    && NumericFits(r.valorBcSt, 13, 2)
  }

  /** `Registro75.to_sintegra_line`: the shared formatters; the rates and
      the base with two decimal places. */
  function Encode75(r: Registro75): (line: string)
    ensures |line| >= 2 && line[..2] == "75"
  {
    var head := FormatText("75", 2);
    assert head == "75";
    var fields := FormatDate(r.dataInicial) + FormatDate(r.dataFinal) + FormatText(r.codigo, 14) +
      FormatText(r.ncm, 8) + FormatText(r.descricao, 53) + FormatText(r.unCom, 6) +
      FormatNumeric(r.valorIpi, 5, 2) + FormatNumeric(r.valorIcms, 4, 2) +
      FormatNumeric(r.redBcIcms, 5, 2) + FormatNumeric(r.valorBcSt, 13, 2);
    Cut2(head, fields);
    head + fields
  }

  /** Where each piece of a type 75 line starts and ends. */
  lemma Cut75(p1: string, p2: string, p3: string, p4: string, p5: string, p6: string, p7: string,
              p8: string, p9: string, p10: string, p11: string)
    requires |p1| == 2 && |p2| == 8 && |p3| == 8 && |p4| == 14 && |p5| == 8 && |p6| == 53 &&
      |p7| == 6 && |p8| == 5 && |p9| == 4 && |p10| == 5 && |p11| == 13
    ensures var l := p1 + (p2 + p3 + p4 + p5 + p6 + p7 + p8 + p9 + p10 + p11);
      && |l| == 126 && l[2..10] == p2 && l[10..18] == p3 && l[18..32] == p4 && l[32..40] == p5 &&
      l[40..93] == p6 && l[93..99] == p7 && l[99..104] == p8 && l[104..108] == p9 &&
      l[108..113] == p10 && l[113..] == p11
  {
    var l := p1 + (p2 + p3 + p4 + p5 + p6 + p7 + p8 + p9 + p10 + p11);
    assert l[113..] == p11;
    assert l[108..113] == p10;
    assert l[104..108] == p9;
    assert l[99..104] == p8;
    assert l[93..99] == p7;
    assert l[40..93] == p6;
    assert l[32..40] == p5;
    assert l[18..32] == p4;
    assert l[10..18] == p3;
    assert l[2..10] == p2;
  }

  /** The columns of a type 75 line, read back: 126 characters in all. */
  lemma Layout75(r: Registro75)
    requires Valid75(r) && Fits75(r)
    ensures var line := Encode75(r);
      && |line| == 126
      && ParseDate(line[2..10]) == Some(r.dataInicial)
      && ParseDate(line[10..18]) == Some(r.dataFinal)
      && Strip(line[18..32]) == r.codigo
      && line[32..40] == r.ncm
      && Strip(line[40..93]) == r.descricao
      && Strip(line[93..99]) == r.unCom
      && DigitsDenote(line[99..104], WrittenValue(r.valorIpi, 2))
      && DigitsDenote(line[104..108], WrittenValue(r.valorIcms, 2))
      && DigitsDenote(line[108..113], WrittenValue(r.redBcIcms, 2))
      && DigitsDenote(line[113..], WrittenValue(r.valorBcSt, 2))
  {
    Pow10Values();
    assert FormatText("75", 2) == "75";
    var line := Encode75(r);
    Cut75("75", FormatDate(r.dataInicial), FormatDate(r.dataFinal), FormatText(r.codigo, 14),
          FormatText(r.ncm, 8), FormatText(r.descricao, 53), FormatText(r.unCom, 6),
          FormatNumeric(r.valorIpi, 5, 2), FormatNumeric(r.valorIcms, 4, 2),
          FormatNumeric(r.redBcIcms, 5, 2), FormatNumeric(r.valorBcSt, 13, 2));
    DateColumn(r.dataInicial, line[2..10]);
    DateColumn(r.dataFinal, line[10..18]);
    FormatTextBack(r.codigo, 14, line[18..32]);
    FormatTextExact(r.ncm, 8, line[32..40]);
    FormatTextBack(r.descricao, 53, line[40..93]);
    FormatTextBack(r.unCom, 6, line[93..99]);
    NumericColumn(r.valorIpi, 5, 2, line[99..104]);
    NumericColumn(r.valorIcms, 4, 2, line[104..108]);
    NumericColumn(r.redBcIcms, 5, 2, line[108..113]);
    NumericColumn(r.valorBcSt, 13, 2, line[113..]);
  }

}
