/** The descriptor registry of the older generation: the copy of `doiJson`
    embedded in doimaker.js:787-1539 and parsed at doimaker.js:1540. */
module RootRegistry {
  import opened JsValues
  import opened Schema

  /** The `Adquirente` schema (doimaker.js:789-876). */
  const Adquirente: EntitySchema := map[
    "cpfConjuge" := Descriptor(KString, None, 11, 11, NoFormat),
    "cpfInventariante" := Descriptor(KString, None, 11, 11, NoFormat),
    "indicadorConjuge" := Descriptor(KBoolean, None, 0, 0, NoFormat),
    "indicadorConjugeParticipa" := Descriptor(KBoolean, None, 0, 0, NoFormat),
    "indicadorCpfConjugeIdentificado" := Descriptor(KBoolean, None, 0, 0, NoFormat),
    "indicadorEspolio" := Descriptor(KBoolean, None, 0, 0, NoFormat),
    "indicadorEstrangeiro" := Descriptor(KBoolean, None, 0, 0, NoFormat),
    "indicadorNaoConstaParticipacaoOperacao" := Descriptor(KBoolean, None, 0, 0, NoFormat),
    "indicadorNiIdentificado" := Descriptor(KBoolean, None, 0, 0, NoFormat),
    "indicadorRepresentante" := Descriptor(KBoolean, None, 0, 0, NoFormat),
    "motivoNaoIdentificacaoNi" := Descriptor(KString, Some([VStr("1"), VStr("2")]), 0, 0, NoFormat),
    "ni" := Descriptor(KString, None, 11, 14, NoFormat),
    "regimeBens" := Descriptor(KString, Some([VStr("1"), VStr("2"), VStr("3"), VStr("4")]), 0, 0, NoFormat)
  ]

  /** The `Alienante` schema (doimaker.js:879-966). */
  const Alienante: EntitySchema := map[
    "cpfConjuge" := Descriptor(KString, None, 11, 11, NoFormat),
    "cpfInventariante" := Descriptor(KString, None, 11, 11, NoFormat),
    "indicadorConjuge" := Descriptor(KBoolean, None, 0, 0, NoFormat),
    "indicadorConjugeParticipa" := Descriptor(KBoolean, None, 0, 0, NoFormat),
    "indicadorCpfConjugeIdentificado" := Descriptor(KBoolean, None, 0, 0, NoFormat),
    "indicadorEspolio" := Descriptor(KBoolean, None, 0, 0, NoFormat),
    "indicadorEstrangeiro" := Descriptor(KBoolean, None, 0, 0, NoFormat),
    "indicadorNaoConstaParticipacaoOperacao" := Descriptor(KBoolean, None, 0, 0, NoFormat),
    "indicadorNiIdentificado" := Descriptor(KBoolean, None, 0, 0, NoFormat),
    "indicadorRepresentante" := Descriptor(KBoolean, None, 0, 0, NoFormat),
    "motivoNaoIdentificacaoNi" := Descriptor(KString, Some([VStr("1"), VStr("2")]), 0, 0, NoFormat),
    "ni" := Descriptor(KString, None, 11, 14, NoFormat),
    "regimeBens" := Descriptor(KString, Some([VStr("1"), VStr("2"), VStr("3"), VStr("4")]), 0, 0, NoFormat)
  ]

  /** The `Ato` schema (doimaker.js:969-1104). */
  const Ato: EntitySchema := map[
    "dataLavraturaRegistroAverbacao" := Descriptor(KString, None, 0, 0, FDate),
    "dataNegocioJuridico" := Descriptor(KString, None, 0, 0, FDate),
    "existeDoiAnterior" := Descriptor(KBoolean, None, 0, 0, NoFormat),
    "folha" := Descriptor(KString, None, 0, 7, NoFormat),
    "matriculaNotarialEletronica" := Descriptor(KString, None, 0, 24, NoFormat),
    "naturezaTitulo" := Descriptor(KString, Some([VStr("1"), VStr("2"), VStr("3"), VStr("4"), VStr("5")]), 0, 0, NoFormat),
    "numeroLivro" := Descriptor(KString, None, 0, 7, NoFormat),
    "retificacaoAto" := Descriptor(KBoolean, None, 0, 0, NoFormat),
    "tipoAto" := Descriptor(KString, Some([VStr("1"), VStr("2"), VStr("3"), VStr("4"), VStr("5"), VStr("6")]), 0, 0, NoFormat),
    "tipoDeclaracao" := Descriptor(KString, Some([VStr("0")]), 0, 0, NoFormat),
    "tipoServico" := Descriptor(KString, Some([VStr("1"), VStr("2"), VStr("3")]), 0, 0, NoFormat),
    "tipoLivro" := Descriptor(KString, Some([VStr("1"), VStr("2")]), 0, 0, NoFormat)
  ]

  /** The `Imovel` schema (doimaker.js:1107-1536). */
  const Imovel: EntitySchema := map[
    "areaConstruida" := Descriptor(KNumber, None, 0, 0, NoFormat),
    "areaImovel" := Descriptor(KNumber, None, 0, 0, NoFormat),
    "bairro" := Descriptor(KString, None, 0, 150, NoFormat),
    "cep" := Descriptor(KString, None, 0, 8, NoFormat),
    "certidaoAutorizacaoTransferencia" := Descriptor(KString, None, 0, 11, NoFormat),
    "cib" := Descriptor(KString, None, 0, 8, NoFormat),
    "codigoIbge" := Descriptor(KString, None, 0, 7, NoFormat),
    "codigoIncra" := Descriptor(KString, None, 0, 13, NoFormat),
    "codigoNacionalMatricula" := Descriptor(KString, None, 0, 16, NoFormat),
    "complementoEndereco" := Descriptor(KString, None, 0, 100, NoFormat),
    "complementoNumeroImovel" := Descriptor(KString, None, 0, 10, NoFormat),
    "denominacao" := Descriptor(KString, None, 0, 200, NoFormat),
    "descricaoOutrasOperacoesImobiliarias" := Descriptor(KString, None, 0, 30, NoFormat),
    "destinacao" := Descriptor(KString, Some([VStr("1"), VStr("3")]), 0, 0, NoFormat),
    "formaPagamento" := Descriptor(KString, Some([VStr("5"), VStr("10"), VStr("11"), VStr("7"), VStr("9")]), 0, 0, NoFormat),
    "indicadorAlienacaoFiduciaria" := Descriptor(KBoolean, None, 0, 0, NoFormat),
    "indicadorAreaConstruidaNaoConsta" := Descriptor(KBoolean, None, 0, 0, NoFormat),
    "indicadorAreaLoteNaoConsta" := Descriptor(KBoolean, None, 0, 0, NoFormat),
    "indicadorImovelPublicoUniao" := Descriptor(KBoolean, None, 0, 0, NoFormat),
    "indicadorNaoConstaValorBaseCalculoItbiItcmd" := Descriptor(KBoolean, None, 0, 0, NoFormat),
    "indicadorNaoConstaValorOperacaoImobiliaria" := Descriptor(KBoolean, None, 0, 0, NoFormat),
    "indicadorPagamentoDinheiro" := Descriptor(KBoolean, None, 0, 0, NoFormat),
    "indicadorPermutaBens" := Descriptor(KBoolean, None, 0, 0, NoFormat),
    "inscricaoMunicipal" := Descriptor(KString, None, 0, 45, NoFormat),
    "localizacao" := Descriptor(KString, None, 0, 200, NoFormat),
    "matricula" := Descriptor(KString, None, 0, 7, NoFormat),
    "numeroRegistro" := Descriptor(KString, None, 0, 30, NoFormat),
    "numeroRegistroAverbacao" := Descriptor(KString, None, 0, 7, NoFormat),
    "mesAnoUltimaParcela" := Descriptor(KString, None, 0, 0, FDate),
    "nomeLogradouro" := Descriptor(KString, None, 0, 150, NoFormat),
    "numeroImovel" := Descriptor(KString, None, 0, 10, NoFormat),
    "registroImobiliarioPatrimonial" := Descriptor(KString, None, 13, 13, NoFormat),
    "tipoImovel" := Descriptor(KString, Some(TipoImovelCodes), 0, 0, NoFormat),
    "tipoLogradouro" := Descriptor(KString, None, 0, 30, NoFormat),
    "tipoOperacaoImobiliaria" := Descriptor(KString, Some(TipoOperacaoImobiliariaCodes), 0, 0, NoFormat),
    "tipoParteTransacionada" := Descriptor(KString, Some([VStr("1"), VStr("2")]), 0, 0, NoFormat),
    "transcricao" := Descriptor(KNumber, None, 0, 0, FInt32),
    "valorBaseCalculoItbiItcmd" := Descriptor(KNumber, None, 0, 0, NoFormat),
    "valorOperacaoImobiliaria" := Descriptor(KNumber, None, 0, 0, NoFormat),
    "valorPagoAteDataAto" := Descriptor(KNumber, None, 0, 0, NoFormat),
    "valorPagoMoedaCorrenteDataAto" := Descriptor(KNumber, None, 0, 0, NoFormat),
    "valorParteTransacionada" := Descriptor(KNumber, None, 0, 0, NoFormat)
  ]

  /** The consts of the `tipoImovel` menu. */
  const TipoImovelCodes: seq<Value> := [VStr("15"), VStr("31"), VStr("65"), VStr("67"), VStr("69"), VStr("71"), VStr("89"), VStr("90"), VStr("91"), VStr("92"), VStr("93"), VStr("94"), VStr("95"), VStr("96")]

  /** The consts of the `tipoOperacaoImobiliaria` menu. */
  const TipoOperacaoImobiliariaCodes: seq<Value> := [VStr("11"), VStr("13"), VStr("15"), VStr("19"), VStr("21"), VStr("31"), VStr("33"), VStr("35"), VStr("37"), VStr("39"), VStr("41"), VStr("45"), VStr("47"), VStr("55"), VStr("56"), VStr("57"), VStr("58"), VStr("59"), VStr("60"), VStr("61"), VStr("62"), VStr("63"), VStr("64"), VStr("65"), VStr("66"), VStr("67"), VStr("68"), VStr("69"), VStr("70"), VStr("71"), VStr("72"), VStr("73"), VStr("74")]

  /** The registry `doiDefs`, by entity name. */
  const Registry: map<string, EntitySchema> := map["Adquirente" := Adquirente, "Alienante" := Alienante, "Ato" := Ato, "Imovel" := Imovel]
}
