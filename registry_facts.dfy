/** Facts about the two descriptor registries, stated as what validation
    lets through for the fields concerned. */
module RegistryFacts {
  import opened JsValues
  import opened Schema
  import opened Property
  import TaxId
  import DoiRegistry
  import RootRegistry

  predicate DigitCodes(codes: seq<Value>) {
    forall i :: 0 <= i < |codes| ==> codes[i].VStr? && codes[i].str != [] && AllDecimalDigits(codes[i].str)
  }

  lemma DoiTipoImovelCodesAreDigits()
    ensures DigitCodes(DoiRegistry.TipoImovelCodes)
  {
  }

  lemma DoiTipoOperacaoImobiliariaCodesAreDigits()
    ensures DigitCodes(DoiRegistry.TipoOperacaoImobiliariaCodes)
  {
  }

  lemma RootTipoImovelCodesAreDigits()
    ensures DigitCodes(RootRegistry.TipoImovelCodes)
  {
  }

  lemma RootTipoOperacaoImobiliariaCodesAreDigits()
    ensures DigitCodes(RootRegistry.TipoOperacaoImobiliariaCodes)
  {
  }

  lemma DoiAtoMenusAreDigitStrings()
    ensures MenusAreDigitStrings(DoiRegistry.Ato)
  {
  }

  lemma DoiAdquirenteMenusAreDigitStrings()
    ensures MenusAreDigitStrings(DoiRegistry.Adquirente)
  {
  }

  lemma DoiAlienanteMenusAreDigitStrings()
    ensures MenusAreDigitStrings(DoiRegistry.Alienante)
  {
  }

  /** The `Imovel` fields other than its five menus have no `oneOf`. */
  lemma DoiImovelPlainFields(n: string)
    requires n in DoiRegistry.Imovel
    requires n !in {"destinacao", "tipoImovel", "tipoOperacaoImobiliaria", "tipoParteTransacionada", "formaPagamento"}
    ensures DoiRegistry.Imovel[n].oneOf == None
  {
  }

  lemma {:induction false} DoiImovelDestinacaoMenu()
    ensures DigitMenu(DoiRegistry.Imovel["destinacao"])
  {
  }

  lemma {:induction false} DoiImovelTipoImovelMenu()
    ensures DigitMenu(DoiRegistry.Imovel["tipoImovel"])
  {
    DoiTipoImovelCodesAreDigits();
  }

  lemma {:induction false} DoiImovelTipoOperacaoImobiliariaMenu()
    ensures DigitMenu(DoiRegistry.Imovel["tipoOperacaoImobiliaria"])
  {
    DoiTipoOperacaoImobiliariaCodesAreDigits();
  }

  lemma {:induction false} DoiImovelTipoParteTransacionadaMenu()
    ensures DigitMenu(DoiRegistry.Imovel["tipoParteTransacionada"])
  {
  }

  lemma {:induction false} DoiImovelFormaPagamentoMenu()
    ensures DigitMenu(DoiRegistry.Imovel["formaPagamento"])
  {
  }

  lemma {:induction false} DoiImovelMenusAreDigitStrings()
    ensures MenusAreDigitStrings(DoiRegistry.Imovel)
  {
    DoiImovelDestinacaoMenu();
    DoiImovelTipoImovelMenu();
    DoiImovelTipoOperacaoImobiliariaMenu();
    DoiImovelTipoParteTransacionadaMenu();
    DoiImovelFormaPagamentoMenu();
    forall n | n in DoiRegistry.Imovel
      ensures DigitMenu(DoiRegistry.Imovel[n])
    {
      if n !in {"destinacao", "tipoImovel", "tipoOperacaoImobiliaria", "tipoParteTransacionada", "formaPagamento"} {
        DoiImovelPlainFields(n);
      }
    }
  }



  /** Every menu field of src/doischema.js has type "string" and consts that
      are decimal-digit strings. */
  lemma {:induction false} DoiMenusAreDigitStrings()
    ensures MenusAreDigitStrings(DoiRegistry.Ato)
    ensures MenusAreDigitStrings(DoiRegistry.Adquirente)
    ensures MenusAreDigitStrings(DoiRegistry.Alienante)
    ensures MenusAreDigitStrings(DoiRegistry.Imovel)
  {
    DoiAtoMenusAreDigitStrings();
    DoiAdquirenteMenusAreDigitStrings();
    DoiAlienanteMenusAreDigitStrings();
    DoiImovelMenusAreDigitStrings();
  }

  lemma RootAtoMenusAreDigitStrings()
    ensures MenusAreDigitStrings(RootRegistry.Ato)
  {
    forall n | n in RootRegistry.Ato
      ensures DigitMenu(RootRegistry.Ato[n])
    {
      if n in {"naturezaTitulo", "tipoAto", "tipoDeclaracao", "tipoServico", "tipoLivro"} {
      } else {
        assert RootRegistry.Ato[n].oneOf == None;
      }
    }
  }

  lemma RootAdquirenteMenusAreDigitStrings()
    ensures MenusAreDigitStrings(RootRegistry.Adquirente)
  {
  }

  lemma RootAlienanteMenusAreDigitStrings()
    ensures MenusAreDigitStrings(RootRegistry.Alienante)
  {
  }

  /** The `Imovel` fields other than its five menus have no `oneOf`. */
  lemma RootImovelPlainFields(n: string)
    requires n in RootRegistry.Imovel
    requires n !in {"destinacao", "tipoImovel", "tipoOperacaoImobiliaria", "tipoParteTransacionada", "formaPagamento"}
    ensures RootRegistry.Imovel[n].oneOf == None
  {
  }

  lemma {:induction false} RootImovelDestinacaoMenu()
    ensures DigitMenu(RootRegistry.Imovel["destinacao"])
  {
  }

  lemma {:induction false} RootImovelTipoImovelMenu()
    ensures DigitMenu(RootRegistry.Imovel["tipoImovel"])
  {
    RootTipoImovelCodesAreDigits();
  }

  lemma {:induction false} RootImovelTipoOperacaoImobiliariaMenu()
    ensures DigitMenu(RootRegistry.Imovel["tipoOperacaoImobiliaria"])
  {
    RootTipoOperacaoImobiliariaCodesAreDigits();
  }

  lemma {:induction false} RootImovelTipoParteTransacionadaMenu()
    ensures DigitMenu(RootRegistry.Imovel["tipoParteTransacionada"])
  {
  }

  lemma {:induction false} RootImovelFormaPagamentoMenu()
    ensures DigitMenu(RootRegistry.Imovel["formaPagamento"])
  {
  }

  lemma {:induction false} RootImovelMenusAreDigitStrings()
    ensures MenusAreDigitStrings(RootRegistry.Imovel)
  {
    RootImovelDestinacaoMenu();
    RootImovelTipoImovelMenu();
    RootImovelTipoOperacaoImobiliariaMenu();
    RootImovelTipoParteTransacionadaMenu();
    RootImovelFormaPagamentoMenu();
    forall n | n in RootRegistry.Imovel
      ensures DigitMenu(RootRegistry.Imovel[n])
    {
      if n !in {"destinacao", "tipoImovel", "tipoOperacaoImobiliaria", "tipoParteTransacionada", "formaPagamento"} {
        RootImovelPlainFields(n);
      }
    }
  }



  /** The same for the copy embedded in doimaker.js. */
  lemma {:induction false} RootMenusAreDigitStrings()
    ensures MenusAreDigitStrings(RootRegistry.Ato)
    ensures MenusAreDigitStrings(RootRegistry.Adquirente)
    ensures MenusAreDigitStrings(RootRegistry.Alienante)
    ensures MenusAreDigitStrings(RootRegistry.Imovel)
  {
    RootAtoMenusAreDigitStrings();
    RootAdquirenteMenusAreDigitStrings();
    RootAlienanteMenusAreDigitStrings();
    RootImovelMenusAreDigitStrings();
  }

  /** Every schema of the newer registry, by name. */
  lemma {:induction false} DoiRegistryMenus(entity: string)
    requires entity in DoiRegistry.Registry
    ensures MenusAreDigitStrings(DoiRegistry.Registry[entity])
  {
    DoiMenusAreDigitStrings();
  }

  /** Every schema of the older registry, by name. */
  lemma {:induction false} RootRegistryMenus(entity: string)
    requires entity in RootRegistry.Registry
    ensures MenusAreDigitStrings(RootRegistry.Registry[entity])
  {
    RootMenusAreDigitStrings();
  }

  /** On every descriptor of src/doischema.js the newer `validate`, with its
      extra `propValue < 0` guard, gives exactly the older result; and a menu
      field never lets a number or a boolean through. */
  lemma {:induction false} SrcValidationMatchesRoot(entity: string, name: string, v: Value, host: Host)
    requires entity in DoiRegistry.Registry && name in DoiRegistry.Registry[entity]
    ensures Validate(DoiRegistry.Registry[entity][name], v, host, Src)
         == Validate(DoiRegistry.Registry[entity][name], v, host, Root)
    ensures DoiRegistry.Registry[entity][name].oneOf.Some? && !v.VStr? ==>
            Validate(DoiRegistry.Registry[entity][name], v, host, Src) == VNull
  {
    DoiRegistryMenus(entity);
    SrcGuardIsRedundant(DoiRegistry.Registry[entity][name], v, host);
  }

  /** The older registry's menu fields refuse numbers and booleans too. */
  lemma {:induction false} RootMenusRefuseNonStrings(entity: string, name: string, v: Value, host: Host)
    requires entity in RootRegistry.Registry && name in RootRegistry.Registry[entity]
    requires RootRegistry.Registry[entity][name].oneOf.Some? && !v.VStr?
    ensures Validate(RootRegistry.Registry[entity][name], v, host, Root) == VNull
  {
    RootRegistryMenus(entity);
  }

  /** `ni` admits only strings of length 11 to 14 in both party schemas,
      and every valid CPF or CNPJ fits it. */
  lemma NiAdmitsElevenToFourteen(v: Value, host: Host, gen: Generation)
    ensures Validate(DoiRegistry.Adquirente["ni"], v, host, gen) != VNull ==> v.VStr? && 11 <= Utf16Length(v.str) <= 14
    ensures Validate(DoiRegistry.Alienante["ni"], v, host, gen) != VNull ==> v.VStr? && 11 <= Utf16Length(v.str) <= 14
    ensures TaxId.IsTaxId(v) ==> Validate(DoiRegistry.Adquirente["ni"], v, host, gen) == v
    ensures TaxId.IsTaxId(v) ==> Validate(DoiRegistry.Alienante["ni"], v, host, gen) == v
  {
    if v.VStr? && AllDecimalDigits(v.str) {
      DigitsAreOneUnitEach(v.str);
    }
  }

  /** `cpfConjuge` and `cpfInventariante` admit exactly the strings of length 11. */
  lemma SpouseAndExecutorCpfHaveElevenCharacters(v: Value, host: Host, gen: Generation)
    ensures Validate(DoiRegistry.Adquirente["cpfConjuge"], v, host, gen) != VNull <==> v.VStr? && Utf16Length(v.str) == 11
    ensures Validate(DoiRegistry.Adquirente["cpfInventariante"], v, host, gen) != VNull <==> v.VStr? && Utf16Length(v.str) == 11
    ensures Validate(DoiRegistry.Alienante["cpfConjuge"], v, host, gen) != VNull <==> v.VStr? && Utf16Length(v.str) == 11
    ensures Validate(DoiRegistry.Alienante["cpfInventariante"], v, host, gen) != VNull <==> v.VStr? && Utf16Length(v.str) == 11
  {
  }

  /** `tipoDeclaracao` admits only "0". */
  lemma DeclarationMenu(v: Value, host: Host, gen: Generation)
    ensures Validate(DoiRegistry.Ato["tipoDeclaracao"], v, host, gen) != VNull <==> v == VStr("0")
  {
    if v == VStr("0") {
      DigitStringIsNonNegative(v.str);
    }
  }

  /** `tipoServico` admits only "1", "2" and "3". */
  lemma ServiceMenu(v: Value, host: Host, gen: Generation)
    ensures Validate(DoiRegistry.Ato["tipoServico"], v, host, gen) != VNull <==>
            v == VStr("1") || v == VStr("2") || v == VStr("3")
  {
    if v == VStr("1") || v == VStr("2") || v == VStr("3") {
      DigitStringIsNonNegative(v.str);
    }
  }

  /** `registroImobiliarioPatrimonial` needs exactly 13 characters;
      `numeroLivro` and `folha` take at most 7. */
  lemma RegistryBookAndSheetLengths(v: Value, host: Host, gen: Generation)
    ensures Validate(DoiRegistry.Imovel["registroImobiliarioPatrimonial"], v, host, gen) != VNull <==>
            v.VStr? && Utf16Length(v.str) == 13
    ensures Validate(DoiRegistry.Ato["numeroLivro"], v, host, gen) != VNull <==> v.VStr? && Utf16Length(v.str) <= 7
    ensures Validate(DoiRegistry.Ato["folha"], v, host, gen) != VNull <==> v.VStr? && Utf16Length(v.str) <= 7
  {
  }

  /** The act's date fields are exactly `dataLavraturaRegistroAverbacao`
      and `dataNegocioJuridico`, and it has no int32 field. */
  lemma AtoFormattedFields(n: string)
    ensures n in DoiRegistry.Ato && DoiRegistry.Ato[n].format == FDate <==>
            n == "dataLavraturaRegistroAverbacao" || n == "dataNegocioJuridico"
    ensures n in DoiRegistry.Ato ==> DoiRegistry.Ato[n].format != FInt32
  {
  }

  /** Every other property field carries no format. */
  lemma ImovelUnformattedFields(n: string)
    requires n in DoiRegistry.Imovel && n != "mesAnoUltimaParcela" && n != "transcricao"
    ensures DoiRegistry.Imovel[n].format == NoFormat
  {
  }

  /** The property's only date field is `mesAnoUltimaParcela`. */
  lemma ImovelDateFields(n: string)
    ensures n in DoiRegistry.Imovel && DoiRegistry.Imovel[n].format == FDate <==> n == "mesAnoUltimaParcela"
  {
    if n in DoiRegistry.Imovel && n != "mesAnoUltimaParcela" && n != "transcricao" {
      ImovelUnformattedFields(n);
    }
  }

  /** The property's only int32 field is `transcricao`. */
  lemma ImovelInt32Fields(n: string)
    ensures n in DoiRegistry.Imovel && DoiRegistry.Imovel[n].format == FInt32 <==> n == "transcricao"
  {
    if n in DoiRegistry.Imovel && n != "mesAnoUltimaParcela" && n != "transcricao" {
      ImovelUnformattedFields(n);
    }
  }

  /** The party schemas carry no format. */
  lemma PartyFieldsUnformatted(n: string)
    ensures n in DoiRegistry.Adquirente ==> DoiRegistry.Adquirente[n].format == NoFormat
    ensures n in DoiRegistry.Alienante ==> DoiRegistry.Alienante[n].format == NoFormat
  {
  }

  /** What the date and int32 formats admit. */
  lemma FormattedValues(v: Value, host: Host, gen: Generation)
    ensures Validate(DoiRegistry.Ato["dataNegocioJuridico"], v, host, gen) != VNull <==>
            v.VStr? && DateShape(v.str) && host.dateParses(v.str)
    ensures Validate(DoiRegistry.Imovel["transcricao"], v, host, gen) != VNull <==>
            v.VNum? && IsInteger(v.num) && 0.0 < v.num < 100000000.0
  {
  }
}
