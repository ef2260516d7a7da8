/** The records that identify the declarant and close the file: type 10
    (master record of the establishment), type 11 (its address and contact)
    and type 90 (the totalization trailer). Each record is a value with a
    validity predicate (what construction guarantees), a constructor that
    validates raw field values, and its fixed-width line with a lemma that
    locates every column of it. */
module HeaderRecords {
  import opened Text
  import opened Fields
  import opened Scan

  // ---------------------------------------------------------------------
  // Registro 10

  /** Type 10, the master record of the establishment: its CNPJ, state
      registration, name, city and state, fax, the period covered and the
      codes of the file's structure, the nature of the operations and the
      purpose of the file. */
  datatype Registro10 = Registro10(
    cnpjMf: string,
    ie: string,
    nomeContribuinte: string,
    municipio: string,
    unidadeFederacao: string,
    fax: string,
    dataInicial: Date,
    dataFinal: Date,
    codIdEstrutura: string,
    codIdNatureza: string,
    codIdFinalidade: string)

  /** What constructing a `Registro10` guarantees of its fields. */
  predicate Valid10(r: Registro10) {
    && DigitCodeOk(r.cnpjMf, 14)
    && TextOk(r.ie, 0, 14)
    && TextOk(r.nomeContribuinte, 0, 35)
    && TextOk(r.municipio, 0, 30)
    && UfOk(r.unidadeFederacao)
    && TextOk(r.fax, 0, 10)
    && TextOk(r.codIdEstrutura, 1, 1)
    && TextOk(r.codIdNatureza, 1, 1)
    && TextOk(r.codIdFinalidade, 1, 1)
  }

  /** `Registro10(...)`: the fields validated in declaration order, the first
      failing one named in the error. It succeeds exactly when the record of
      the stripped (state codes also upper-cased) values is valid, and holds
      that record; a valid record comes back unchanged. */
  function Make10(cnpjMf: string, ie: string, nomeContribuinte: string, municipio: string,
                  unidadeFederacao: string, fax: string, dataInicial: Date, dataFinal: Date,
                  codIdEstrutura: string, codIdNatureza: string, codIdFinalidade: string)
    : (r: Result<Registro10>)
    ensures r.Ok? ==> Valid10(r.value)
    ensures var c := Registro10(cnpjMf, ie, nomeContribuinte, municipio, unidadeFederacao, fax,
                dataInicial, dataFinal, codIdEstrutura, codIdNatureza, codIdFinalidade);
            Valid10(c) ==> r == Ok(c)
    ensures var c := Registro10(Strip(cnpjMf), Strip(ie), Strip(nomeContribuinte),
                Strip(municipio), Upper(Strip(unidadeFederacao)), Strip(fax), dataInicial, dataFinal,
                Strip(codIdEstrutura), Strip(codIdNatureza), Strip(codIdFinalidade));
            (r.Ok? <==> Valid10(c)) && (r.Ok? ==> r.value == c)
  {
    var cnpjMf' :- CheckDigitCode("cnpj_mf", cnpjMf, 14);
    var ie' :- CheckText("ie", ie, 0, 14);
    var nomeContribuinte' :- CheckText("nome_contribuinte", nomeContribuinte, 0, 35);
    var municipio' :- CheckText("municipio", municipio, 0, 30);
    var unidadeFederacao' :- CheckUf("unidade_federacao", unidadeFederacao);
    var fax' :- CheckText("fax", fax, 0, 10);
    var codIdEstrutura' :- CheckText("cod_id_estrutura", codIdEstrutura, 1, 1);
    var codIdNatureza' :- CheckText("cod_id_natureza", codIdNatureza, 1, 1);
    var codIdFinalidade' :- CheckText("cod_id_finalidade", codIdFinalidade, 1, 1);
    Ok(Registro10(cnpjMf', ie', nomeContribuinte', municipio', unidadeFederacao', fax',
      dataInicial, dataFinal, codIdEstrutura', codIdNatureza', codIdFinalidade'))
  }

  /** `Registro10.to_sintegra_line`: the shared formatters, field after
      field; the line starts with "10". */
  function Encode10(r: Registro10): (line: string)
    ensures |line| >= 2 && line[..2] == "10"
  {
    var head := FormatText("10", 2);
    assert head == "10";
    var fields := FormatDigitCode(r.cnpjMf, 14) + FormatText(r.ie, 14) +
      FormatText(r.nomeContribuinte, 35) + FormatText(r.municipio, 30) +
      FormatText(r.unidadeFederacao, 2) + FormatText(r.fax, 10) + FormatDate(r.dataInicial) +
      FormatDate(r.dataFinal) + FormatText(r.codIdEstrutura, 1) + FormatText(r.codIdNatureza, 1) +
      FormatText(r.codIdFinalidade, 1);
    Cut2(head, fields);
    head + fields
  }

  /** Where each piece of a type 10 line starts and ends. */
  lemma Cut10(p1: string, p2: string, p3: string, p4: string, p5: string, p6: string, p7: string,
              p8: string, p9: string, p10: string, p11: string, p12: string)
    requires |p1| == 2 && |p2| == 14 && |p3| == 14 && |p4| == 35 && |p5| == 30 && |p6| == 2 &&
      |p7| == 10 && |p8| == 8 && |p9| == 8 && |p10| == 1 && |p11| == 1 && |p12| == 1
    ensures var l := p1 + (p2 + p3 + p4 + p5 + p6 + p7 + p8 + p9 + p10 + p11 + p12);
      && |l| == 126 && l[2..16] == p2 && l[16..30] == p3 && l[30..65] == p4 && l[65..95] == p5 &&
      l[95..97] == p6 && l[97..107] == p7 && l[107..115] == p8 && l[115..123] == p9 &&
      l[123..124] == p10 && l[124..125] == p11 && l[125..] == p12
  {
    var l := p1 + (p2 + p3 + p4 + p5 + p6 + p7 + p8 + p9 + p10 + p11 + p12);
    assert l[125..] == p12;
    assert l[124..125] == p11;
    assert l[123..124] == p10;
    assert l[115..123] == p9;
    assert l[107..115] == p8;
    assert l[97..107] == p7;
    assert l[95..97] == p6;
    assert l[65..95] == p5;
    assert l[30..65] == p4;
    assert l[16..30] == p3;
    assert l[2..16] == p2;
  }

  /** The columns of a type 10 line, read back: 126 characters in all. */
  lemma Layout10(r: Registro10)
    requires Valid10(r)
    ensures var line := Encode10(r);
      && |line| == 126
      && line[2..16] == r.cnpjMf
      && Strip(line[16..30]) == r.ie
      && Strip(line[30..65]) == r.nomeContribuinte
      && Strip(line[65..95]) == r.municipio
      && line[95..97] == r.unidadeFederacao
      && Strip(line[97..107]) == r.fax
      && ParseDate(line[107..115]) == Some(r.dataInicial)
      && ParseDate(line[115..123]) == Some(r.dataFinal)
      && line[123..124] == r.codIdEstrutura
      && line[124..125] == r.codIdNatureza
      && line[125..] == r.codIdFinalidade
  {
    Pow10Values();
    assert FormatText("10", 2) == "10";
    var line := Encode10(r);
    Cut10("10", FormatDigitCode(r.cnpjMf, 14), FormatText(r.ie, 14),
          FormatText(r.nomeContribuinte, 35), FormatText(r.municipio, 30),
          FormatText(r.unidadeFederacao, 2), FormatText(r.fax, 10), FormatDate(r.dataInicial),
          FormatDate(r.dataFinal), FormatText(r.codIdEstrutura, 1), FormatText(r.codIdNatureza, 1),
          FormatText(r.codIdFinalidade, 1));
    FormatTextBack(r.ie, 14, line[16..30]);
    FormatTextBack(r.nomeContribuinte, 35, line[30..65]);
    FormatTextBack(r.municipio, 30, line[65..95]);
    FormatTextExact(r.unidadeFederacao, 2, line[95..97]);
    FormatTextBack(r.fax, 10, line[97..107]);
    DateColumn(r.dataInicial, line[107..115]);
    DateColumn(r.dataFinal, line[115..123]);
    FormatTextExact(r.codIdEstrutura, 1, line[123..124]);
    FormatTextExact(r.codIdNatureza, 1, line[124..125]);
    FormatTextExact(r.codIdFinalidade, 1, line[125..]);
  }

  // ---------------------------------------------------------------------
  // Registro 11

  /** Type 11, the establishment's address and contact. */
  datatype Registro11 = Registro11(
    logradouro: string,
    numero: int,
    complemento: string,
    bairro: string,
    cep: string,
    nomeContato: string,
    telefone: string)

  /** What constructing a `Registro11` guarantees of its fields. */
  predicate Valid11(r: Registro11) {
    && TextOk(r.logradouro, 0, 34)
    && InRange(r.numero, 0, 99999)
    && TextOk(r.complemento, 0, 22)
    && TextOk(r.bairro, 0, 15)
    && DigitCodeOk(r.cep, 8)
    && TextOk(r.nomeContato, 0, 28)
    && TextOk(r.telefone, 0, 12)
  }

  /** `Registro11(...)`: the fields validated in declaration order, the first
      failing one named in the error. It succeeds exactly when the record of
      the stripped (state codes also upper-cased) values is valid, and holds
      that record; a valid record comes back unchanged. */
  function Make11(logradouro: string, numero: int, complemento: string, bairro: string,
                  cep: string, nomeContato: string, telefone: string)
    : (r: Result<Registro11>)
    ensures r.Ok? ==> Valid11(r.value)
    ensures var c := Registro11(logradouro, numero, complemento, bairro, cep, nomeContato, telefone);
            Valid11(c) ==> r == Ok(c)
    ensures var c := Registro11(Strip(logradouro), numero, Strip(complemento), Strip(bairro),
                Strip(cep), Strip(nomeContato), Strip(telefone));
            (r.Ok? <==> Valid11(c)) && (r.Ok? ==> r.value == c)
  {
    var logradouro' :- CheckText("logradouro", logradouro, 0, 34);
    var numero' :- CheckIntRange("numero", numero, 0, 99999);
    var complemento' :- CheckText("complemento", complemento, 0, 22);
    var bairro' :- CheckText("bairro", bairro, 0, 15);
    var cep' :- CheckDigitCode("cep", cep, 8);
    var nomeContato' :- CheckText("nome_contato", nomeContato, 0, 28);
    var telefone' :- CheckText("telefone", telefone, 0, 12);
    Ok(Registro11(logradouro', numero', complemento', bairro', cep', nomeContato', telefone'))
  }

  /** `Registro11.to_sintegra_line`: the shared formatters, field after
      field; the line starts with "11". */
  function Encode11(r: Registro11): (line: string)
    ensures |line| >= 2 && line[..2] == "11"
  {
    var head := FormatText("11", 2);
    assert head == "11";
    var fields := FormatText(r.logradouro, 34) + FormatNumeric(Dec(r.numero, 0), 5, 0) +
      FormatText(r.complemento, 22) + FormatText(r.bairro, 15) + FormatDigitCode(r.cep, 8) +
      FormatText(r.nomeContato, 28) + FormatText(r.telefone, 12);
    Cut2(head, fields);
    head + fields
  }

  /** Where each piece of a type 11 line starts and ends. */
  lemma Cut11(p1: string, p2: string, p3: string, p4: string, p5: string, p6: string, p7: string,
              p8: string)
    requires |p1| == 2 && |p2| == 34 && |p3| == 5 && |p4| == 22 && |p5| == 15 && |p6| == 8 &&
      |p7| == 28 && |p8| == 12
    ensures var l := p1 + (p2 + p3 + p4 + p5 + p6 + p7 + p8);
      && |l| == 126 && l[2..36] == p2 && l[36..41] == p3 && l[41..63] == p4 && l[63..78] == p5 &&
      l[78..86] == p6 && l[86..114] == p7 && l[114..] == p8
  {
    var l := p1 + (p2 + p3 + p4 + p5 + p6 + p7 + p8);
    assert l[114..] == p8;
    assert l[86..114] == p7;
    assert l[78..86] == p6;
    assert l[63..78] == p5;
    assert l[41..63] == p4;
    assert l[36..41] == p3;
    assert l[2..36] == p2;
  }

  /** The columns of a type 11 line, read back: 126 characters in all. */
  lemma Layout11(r: Registro11)
    requires Valid11(r)
    ensures var line := Encode11(r);
      && |line| == 126
      && Strip(line[2..36]) == r.logradouro
      && DigitsDenote(line[36..41], r.numero)
      && Strip(line[41..63]) == r.complemento
      && Strip(line[63..78]) == r.bairro
      && line[78..86] == r.cep
      && Strip(line[86..114]) == r.nomeContato
      && Strip(line[114..]) == r.telefone
  {
    Pow10Values();
    NumericIntColumn(r.numero, 5, FormatNumeric(Dec(r.numero, 0), 5, 0));
    assert FormatText("11", 2) == "11";
    var line := Encode11(r);
    Cut11("11", FormatText(r.logradouro, 34), FormatNumeric(Dec(r.numero, 0), 5, 0),
          FormatText(r.complemento, 22), FormatText(r.bairro, 15), FormatDigitCode(r.cep, 8),
          FormatText(r.nomeContato, 28), FormatText(r.telefone, 12));
    FormatTextBack(r.logradouro, 34, line[2..36]);
    FormatTextBack(r.complemento, 22, line[41..63]);
    FormatTextBack(r.bairro, 15, line[63..78]);
    FormatTextBack(r.nomeContato, 28, line[86..114]);
    FormatTextBack(r.telefone, 12, line[114..]);
  }

  // ---------------------------------------------------------------------
  // Registro 90

  datatype Registro90 = Registro90(cnpj: string, ie: string, totalizacoes: string, numero: int)

  /** The CNPJ of a type 90 record has only its length checked. */
  predicate Valid90(r: Registro90) {
    && TextOk(r.cnpj, 14, 14)
    && TextOk(r.ie, 0, 14)
    && TextOk(r.totalizacoes, 0, 95)
    && InRange(r.numero, 1, 9)
  }

  function Make90(cnpj: string, ie: string, totalizacoes: string, numero: int): (r: Result<Registro90>)
    ensures r.Ok? ==> Valid90(r.value)
    ensures Valid90(Registro90(cnpj, ie, totalizacoes, numero)) ==> r == Ok(Registro90(cnpj, ie, totalizacoes, numero))
    ensures r.Ok? ==> r.value == Registro90(Strip(cnpj), Strip(ie), Strip(totalizacoes), numero)
    ensures r.Err? <==> !(|Strip(cnpj)| == 14 && |Strip(ie)| <= 14 && |Strip(totalizacoes)| <= 95 && 1 <= numero <= 9)
  {
    var c :- CheckText("cnpj", cnpj, 14, 14);
    var i :- CheckText("ie", ie, 0, 14);
    var t :- CheckText("totalizacoes", totalizacoes, 0, 95);
    var n :- CheckIntRange("numero", numero, 1, 9);
    Ok(Registro90(c, i, t, n))
  }

  /** `Registro90.to_sintegra_line`. `_format_numeric` applies `int()` to the
      CNPJ, so the line exists only when the CNPJ is an integer literal. */
  function Encode90(r: Registro90): (line: Option<string>)
    ensures line.Some? <==> PyInt(r.cnpj).Some?
    ensures line.Some? ==> |line.value| >= 2 && line.value[..2] == "90"
  {
    match FormatNumericText(r.cnpj, 14)
    case None => None
    case Some(c) =>
      var head := FormatText("90", 2);
      assert head == "90";
      var fields := c + FormatText(r.ie, 14) + FormatText(r.totalizacoes, 95) +
        FormatNumeric(Dec(r.numero, 0), 1, 0);
      Cut2(head, fields);
      Some(head + fields)
  }

  /** Where each piece of a type 90 line starts and ends. */
  lemma Cut90(p1: string, p2: string, p3: string, p4: string, p5: string)
    requires |p1| == 2 && |p2| == 14 && |p3| == 14 && |p4| == 95 && |p5| == 1
    ensures var l := p1 + (p2 + p3 + p4 + p5);
      && |l| == 126 && l[2..16] == p2 && l[16..30] == p3 && l[30..125] == p4 && l[125..] == p5
  {
    var l := p1 + (p2 + p3 + p4 + p5);
    assert l[125..] == p5;
    assert l[30..125] == p4;
    assert l[16..30] == p3;
    assert l[2..16] == p2;
  }

  /** The columns of a type 90 line with a digit-only CNPJ: 126 characters,
      the CNPJ itself in columns 3-16, the state registration and the
      totalization field read back by stripping, the sequence digit in
      column 126. */
  lemma Layout90(r: Registro90)
    requires Valid90(r) && IsDigitString(r.cnpj)
    ensures Encode90(r).Some?
    ensures var line := Encode90(r).value;
      && |line| == 126
      && line[2..16] == r.cnpj
      && Strip(line[16..30]) == r.ie
      && Strip(line[30..125]) == r.totalizacoes
      && line[125..] == [DigitChar(r.numero)]
  {
    FormatNumericInt(r.numero, 1);
    FormatDigitCodeAgrees(r.cnpj, 14);
    assert FormatText("90", 2) == "90";
    var num := FormatNumeric(Dec(r.numero, 0), 1, 0);
    assert num == [DigitChar(r.numero)];
    var line := Encode90(r).value;
    Cut90("90", r.cnpj, FormatText(r.ie, 14), FormatText(r.totalizacoes, 95), num);
    FormatTextBack(r.ie, 14, line[16..30]);
    FormatTextBack(r.totalizacoes, 95, line[30..125]);
  }
}
