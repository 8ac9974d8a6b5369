/** The descriptor registry of the newer generation (`doiJson` in
    src/doischema.js, parsed into `doiDefs` at src/doimaker.js:644). */
module DoiRegistry {
  import opened JsValues
  import opened Schema

  /** The `Ato` schema (src/doischema.js:4-93). */
  const Ato: EntitySchema := map[
    "tipoDeclaracao" := Descriptor(KString, Some([VStr("0")]), 0, 0, NoFormat),
    "tipoServico" := Descriptor(KString, Some([VStr("1"), VStr("2"), VStr("3")]), 0, 0, NoFormat),
    "tipoAto" := Descriptor(KString, Some([VStr("1"), VStr("2"), VStr("3"), VStr("4"), VStr("5"), VStr("6")]), 0, 0, NoFormat),
    "dataLavraturaRegistroAverbacao" := Descriptor(KString, None, 0, 0, FDate),
    "dataNegocioJuridico" := Descriptor(KString, None, 0, 0, FDate),
    "numeroLivro" := Descriptor(KString, None, 0, 7, NoFormat),
    "folha" := Descriptor(KString, None, 0, 7, NoFormat),
    "matriculaNotarialEletronica" := Descriptor(KString, None, 0, 24, NoFormat),
    "retificacaoAto" := Descriptor(KBoolean, None, 0, 0, NoFormat)
  ]

  /** The `Adquirente` schema (src/doischema.js:96-183). */
  const Adquirente: EntitySchema := map[
    "ni" := Descriptor(KString, None, 11, 14, NoFormat),
    "indicadorNiIdentificado" := Descriptor(KBoolean, None, 0, 0, NoFormat),
    "motivoNaoIdentificacaoNi" := Descriptor(KString, Some([VStr("1"), VStr("2")]), 0, 0, NoFormat),
    "indicadorConjuge" := Descriptor(KBoolean, None, 0, 0, NoFormat),
    "indicadorConjugeParticipa" := Descriptor(KBoolean, None, 0, 0, NoFormat),
    "indicadorCpfConjugeIdentificado" := Descriptor(KBoolean, None, 0, 0, NoFormat),
    "cpfConjuge" := Descriptor(KString, None, 11, 11, NoFormat),
    "regimeBens" := Descriptor(KString, Some([VStr("1"), VStr("2"), VStr("3"), VStr("4")]), 0, 0, NoFormat),
    "indicadorEspolio" := Descriptor(KBoolean, None, 0, 0, NoFormat),
    "cpfInventariante" := Descriptor(KString, None, 11, 11, NoFormat),
    "indicadorEstrangeiro" := Descriptor(KBoolean, None, 0, 0, NoFormat),
    "indicadorNaoConstaParticipacaoOperacao" := Descriptor(KBoolean, None, 0, 0, NoFormat),
    "indicadorRepresentante" := Descriptor(KBoolean, None, 0, 0, NoFormat)
  ]

  /** The `Alienante` schema (src/doischema.js:186-273). */
  const Alienante: EntitySchema := map[
    "ni" := Descriptor(KString, None, 11, 14, NoFormat),
    "indicadorNiIdentificado" := Descriptor(KBoolean, None, 0, 0, NoFormat),
    "motivoNaoIdentificacaoNi" := Descriptor(KString, Some([VStr("1"), VStr("2")]), 0, 0, NoFormat),
    "indicadorConjuge" := Descriptor(KBoolean, None, 0, 0, NoFormat),
    "indicadorConjugeParticipa" := Descriptor(KBoolean, None, 0, 0, NoFormat),
    "indicadorCpfConjugeIdentificado" := Descriptor(KBoolean, None, 0, 0, NoFormat),
    "cpfConjuge" := Descriptor(KString, None, 11, 11, NoFormat),
    "regimeBens" := Descriptor(KString, Some([VStr("1"), VStr("2"), VStr("3"), VStr("4")]), 0, 0, NoFormat),
    "indicadorEspolio" := Descriptor(KBoolean, None, 0, 0, NoFormat),
    "cpfInventariante" := Descriptor(KString, None, 11, 11, NoFormat),
    "indicadorEstrangeiro" := Descriptor(KBoolean, None, 0, 0, NoFormat),
    "indicadorNaoConstaParticipacaoOperacao" := Descriptor(KBoolean, None, 0, 0, NoFormat),
    "indicadorRepresentante" := Descriptor(KBoolean, None, 0, 0, NoFormat)
  ]

  /** The `Imovel` schema (src/doischema.js:276-695). */
  const Imovel: EntitySchema := map[
    "codigoIbge" := Descriptor(KString, None, 0, 7, NoFormat),
    "destinacao" := Descriptor(KString, Some([VStr("1"), VStr("3")]), 0, 0, NoFormat),
    "tipoImovel" := Descriptor(KString, Some(TipoImovelCodes), 0, 0, NoFormat),
    "tipoLogradouro" := Descriptor(KString, None, 0, 30, NoFormat),
    "nomeLogradouro" := Descriptor(KString, None, 0, 150, NoFormat),
    "complementoEndereco" := Descriptor(KString, None, 0, 100, NoFormat),
    "numeroImovel" := Descriptor(KString, None, 0, 10, NoFormat),
    "complementoNumeroImovel" := Descriptor(KString, None, 0, 10, NoFormat),
    "bairro" := Descriptor(KString, None, 0, 150, NoFormat),
    "localizacao" := Descriptor(KString, None, 0, 200, NoFormat),
    "cep" := Descriptor(KString, None, 0, 8, NoFormat),
    "indicadorAreaLoteNaoConsta" := Descriptor(KBoolean, None, 0, 0, NoFormat),
    "areaImovel" := Descriptor(KNumber, None, 0, 0, NoFormat),
    "indicadorAreaConstruidaNaoConsta" := Descriptor(KBoolean, None, 0, 0, NoFormat),
    "areaConstruida" := Descriptor(KNumber, None, 0, 0, NoFormat),
    "matricula" := Descriptor(KString, None, 0, 7, NoFormat),
    "inscricaoMunicipal" := Descriptor(KString, None, 0, 45, NoFormat),
    "cib" := Descriptor(KString, None, 0, 8, NoFormat),
    "codigoIncra" := Descriptor(KString, None, 0, 13, NoFormat),
    "denominacao" := Descriptor(KString, None, 0, 200, NoFormat),
    "codigoNacionalMatricula" := Descriptor(KString, None, 0, 16, NoFormat),
    "transcricao" := Descriptor(KNumber, None, 0, 0, FInt32),
    "tipoOperacaoImobiliaria" := Descriptor(KString, Some(TipoOperacaoImobiliariaCodes), 0, 0, NoFormat),
    "descricaoOutrasOperacoesImobiliarias" := Descriptor(KString, None, 0, 30, NoFormat),
    "indicadorPermutaBens" := Descriptor(KBoolean, None, 0, 0, NoFormat),
    "tipoParteTransacionada" := Descriptor(KString, Some([VStr("1"), VStr("2")]), 0, 0, NoFormat),
    "valorParteTransacionada" := Descriptor(KNumber, None, 0, 0, NoFormat),
    "indicadorNaoConstaValorOperacaoImobiliaria" := Descriptor(KBoolean, None, 0, 0, NoFormat),
    "valorOperacaoImobiliaria" := Descriptor(KNumber, None, 0, 0, NoFormat),
    "indicadorNaoConstaValorBaseCalculoItbiItcmd" := Descriptor(KBoolean, None, 0, 0, NoFormat),
    "valorBaseCalculoItbiItcmd" := Descriptor(KNumber, None, 0, 0, NoFormat),
    "formaPagamento" := Descriptor(KString, Some([VStr("5"), VStr("10"), VStr("11"), VStr("7"), VStr("9")]), 0, 0, NoFormat),
    "indicadorAlienacaoFiduciaria" := Descriptor(KBoolean, None, 0, 0, NoFormat),
    "valorPagoAteDataAto" := Descriptor(KNumber, None, 0, 0, NoFormat),
    "mesAnoUltimaParcela" := Descriptor(KString, None, 0, 0, FDate),
    "indicadorPagamentoDinheiro" := Descriptor(KBoolean, None, 0, 0, NoFormat),
    "valorPagoMoedaCorrenteDataAto" := Descriptor(KNumber, None, 0, 0, NoFormat),
    "indicadorImovelPublicoUniao" := Descriptor(KBoolean, None, 0, 0, NoFormat),
    "registroImobiliarioPatrimonial" := Descriptor(KString, None, 13, 13, NoFormat),
    "certidaoAutorizacaoTransferencia" := Descriptor(KString, None, 0, 11, NoFormat)
  ]

  /** The consts of the `tipoImovel` menu. */
  const TipoImovelCodes: seq<Value> := [VStr("15"), VStr("31"), VStr("65"), VStr("67"), VStr("69"), VStr("71"), VStr("89"), VStr("90"), VStr("91"), VStr("92"), VStr("93"), VStr("94"), VStr("95"), VStr("96")]

  /** The consts of the `tipoOperacaoImobiliaria` menu. */
  const TipoOperacaoImobiliariaCodes: seq<Value> := [VStr("11"), VStr("13"), VStr("55"), VStr("67"), VStr("15"), VStr("19"), VStr("21"), VStr("31"), VStr("33"), VStr("35"), VStr("37"), VStr("39"), VStr("41"), VStr("45"), VStr("47"), VStr("56"), VStr("57"), VStr("58"), VStr("59"), VStr("60"), VStr("61"), VStr("62"), VStr("63"), VStr("64"), VStr("65"), VStr("66"), VStr("68"), VStr("69"), VStr("70"), VStr("71"), VStr("72"), VStr("73"), VStr("74")]

  /** The registry `doiDefs`, by entity name. */
  const Registry: map<string, EntitySchema> := map["Ato" := Ato, "Adquirente" := Adquirente, "Alienante" := Alienante, "Imovel" := Imovel]
}
