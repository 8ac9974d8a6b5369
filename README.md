# DOI maker, modelled in Dafny

DOImaker is a browser form builder for the *Declaração sobre Operações
Imobiliárias* (DOI). A notary fills it in to report a real-estate act to the
Brazilian tax authority. An **act** (`Ato`) is identified by its book and sheet.
It has:

- a list of **transferors** (`Alienante`) and **acquirers** (`Adquirente`), the
  parties, each identified by a CPF or CNPJ tax id (`ni`);
- one or more **properties** (`Imovel`). Each property has two **share tables**
  (`Operacao`): the percentage each transferor gives up and the percentage each
  acquirer receives.

Every entity is a bag of properties described by a JSON schema registry (type,
menu of allowed codes, length bounds, date or int32 format). Validation
nullifies what does not fit. The form finally flattens the
act → property → party graph into a list of `declaracoes`, one record per
property. The newer generation also reads such a list back.

The project models both generations of the code:

- **doimaker.js** (modules `Root…`, registry `RootRegistry`): a monolith whose
  entities keep plain values. Acts register parties and properties in gated
  sets. Share tables are objects keyed by tax id, with a running `total`.
- **src/doimaker.js** with **src/doischema.js** (modules `Src…`, registry
  `DoiRegistry`): entities whose value setter only stores values that
  validate. Share tables are lists of rows, and `total`/`list` are computed
  from the rows. Party lists, property lists, and a maker that builds the
  `declaracoes` and loads them back.

Shared modules:

- `JsValues`: JavaScript primitives, truthiness, `==`, `ToNumber` of strings.
- `TaxId`: the módulo-11 CPF/CNPJ check digits.
- `Schema`, `Property`: descriptors and `DoiProp.validate`.
- `EntityRules`: `isComplete`.
- `SubjectRules`: the party consistency rule.
- `OrderedSets`: JavaScript `Set`/`Map` insertion order.
- `Flattening`: concatenation of record lists.
- `RegistryFacts`: what the two registries admit.

How each kind of code is modelled:

- **Pure code** (validators, rules, record builders) is modelled as functions,
  with lemmas about them.
- **State-changing code** (entities, share tables, party and property lists,
  acts, the app and the maker) is modelled as classes whose methods state the
  new state.
- **Loops** are methods proved against the functions that specify them.
- **Read-only getters** (`generateDoi`, `object`, `doi`, `declaracoes`) first
  read the objects into value snapshots (`…State()`). In the newer generation
  each property is read through its getter, which re-reads the widget
  (`SrcEntity.Reading`). Value-level methods then build the records from those
  snapshots.
- **Engine-dependent behaviour** is a parameter `Host`: whether `new Date(s)`
  parses, and how a number prints as text.

## Model

| member | source | states |
|---|---|---|
| JsValues.TypeOf | src/doimaker.js:107-109 | `typeof` is "object" exactly for null and "string" exactly for strings, so the type test of `validate` lets through only values of the descriptor's kind |
| JsValues.Truthy | doimaker.js:516 | ToBoolean: null, false, 0 and "" are falsy and every other primitive truthy, as the `!prop.validate(…)` and `(!a \|\| b)` tests read them; LooseZeroVersusFalsy relates it to `== 0` |
| JsValues.StringToNumber | src/doimaker.js:111 | ToNumber of a string: blank text is 0, a `0x`/`0o`/`0b` literal its value, a signed decimal literal its value, `Infinity` an infinity, and anything else NaN; DigitStringIsNonNegative and the zero lemmas state its results on digit, blank and hex texts |
| JsValues.ToNumber | src/doimaker.js:111 | ToNumber of a primitive: null is 0, a boolean 0 or 1, a number itself, a string its StringToNumber |
| JsValues.LooseEq | src/doimaker.js:499-501 | `a == b` on primitives: null equals only null; same types compare by value; mixed types compare their ToNumber, and NaN equals nothing |
| JsValues.LooseEqZero | src/doimaker.js:499-501 | `v == 0`: LooseZeroVersusFalsy and the zero-string lemmas state which values it holds for |
| JsValues.Member | src/doimaker.js:709-711 | reading a member of a JSON object yields a value exactly when the record has that member, otherwise `undefined` |
| JsValues.LessThanZero | src/doimaker.js:111 | `v < 0` is decided on ToNumber of the value, as JavaScript compares a string with a number |
| JsValues.ObjectPrototypeKey | src/doimaker.js:707 | names the keys a plain `{}` inherits (`constructor`, `toString`, `__proto__`, …), whose lookup is truthy before anything is stored |
| JsValues.LooseZeroVersusFalsy | src/doimaker.js:499-501 | for booleans and numbers `== 0` coincides with falsy; the empty string is both loosely zero and falsy; null is not loosely zero although falsy (the filter never sees it: a property's getter reads an unset field as its widget's "", 0 or false) |
| JsValues.ZeroStringIsTruthyAndLooselyZero | src/doimaker.js:499-501 | the string "0" is truthy yet `"0" == 0`, so the emission filter drops a field the setter accepted |
| JsValues.BlankStringIsTruthyAndLooselyZero | src/doimaker.js:499-501 | a string of blanks is truthy yet loosely equal to 0 |
| JsValues.HexZeroIsTruthyAndLooselyZero | src/doimaker.js:499-501 | "0x0" is truthy yet loosely equal to 0 |
| JsValues.DigitStringIsNonNegative | src/doimaker.js:111 | a non-empty decimal-digit string converts to a finite number that is not below zero |
| JsValues.TrimStart | src/doimaker.js:111 | the string-to-number conversion first drops leading JavaScript white space: the result is a suffix of the text and does not start with white space (TrimStartDropsOnlySpace: every dropped character is white space) |
| JsValues.TrimStartDropsOnlySpace | src/doimaker.js:111 | every character TrimStart drops from the front is JavaScript white space |
| JsValues.TrimEnd | src/doimaker.js:111 | … and trailing white space: the result is a prefix of the text and does not end with white space (TrimEndDropsOnlySpace: every dropped character is white space) |
| JsValues.TrimEndDropsOnlySpace | src/doimaker.js:111 | every character TrimEnd drops from the end is JavaScript white space |
| JsValues.Utf16Length | src/doimaker.js:120-126 | `.length` counts UTF-16 code units: at least one per character and at most two, exactly one each when no character lies above U+FFFF |
| JsValues.IndexOf | src/doimaker.js:111 | the position of the first occurrence of a character (exponent mark, decimal point) in a numeric literal, or the length when there is none |
| JsValues.ArrayIndex | doimaker.js:763 | the keys an object enumerates before its other keys: canonical decimal text of an integer below 2^32 − 1 |
| JsValues.LongKeyNotArrayIndex | src/doimaker.js:493 | no key of eleven or more UTF-16 code units is an array index |
| TaxId.Digits | doimaker.js:319 | `split("").map(parseInt)` on a digit string gives one value 0..9 per character, the character's digit |
| TaxId.CpfValidate | doimaker.js:311-341 | `CPF.validate` accepts a string of exactly 11 digits, not all equal, whose two check digits satisfy the weighted mod-11 rule (the same function appears at src/doimaker.js:2-32); CpfDeterminedByBase and CheckRulesAgree state what that rule determines |
| TaxId.CnpjValidate | doimaker.js:343-378 | `CNPJ.validate` accepts a string of exactly 14 digits, not all equal, whose two check digits satisfy the weighted mod-11 rule |
| TaxId.IsTaxId | src/doimaker.js:271-273 | `Subject.validate` is the disjunction of the CPF and CNPJ checks |
| TaxId.CheckRulesAgree | doimaker.js:326-327 | the CPF formula (11 − r, 10 and 11 mapped to 0) and the CNPJ formula (0 when r < 2, else 11 − r) compute the same digit, namely the unique digit 0..9 completing the sum to a multiple of 11 when one exists |
| TaxId.CpfExampleValid | doimaker.js:311-341 | "11144477735" passes `CPF.validate` |
| TaxId.CpfRepeatedDigitsRejected | doimaker.js:316-317 | "11111111111" is refused, although both of its check-digit equations hold: only the repeated-digit rule rejects it |
| TaxId.CnpjExampleValid | doimaker.js:343-378 | "11222333000181" passes `CNPJ.validate` |
| TaxId.CnpjExampleSums | doimaker.js:352-371 | the two weighted sums of the CNPJ example are 102 and 120 |
| TaxId.CpfDeterminedByBase | doimaker.js:321-337 | two valid CPFs with the same first nine digits are equal: any change confined to the check digits is rejected |
| TaxId.CnpjDeterminedByBase | doimaker.js:358-374 | two valid CNPJs with the same first twelve digits are equal |
| TaxId.CpfExampleWithLeadingZeroValid | doimaker.js:311-341 | "00100791905" is a valid CPF |
| TaxId.CpfExampleWithLeadingOneValid | doimaker.js:311-341 | "10100791905" is a valid CPF too |
| TaxId.CpfSingleDigitChangeUndetected | doimaker.js:321-337 | there are two valid CPFs that differ in one digit only, so a single-digit typo is not always detected |
| TaxId.CpfAndCnpjDisjoint | src/doimaker.js:271-273 | no value is both a CPF and a CNPJ; every accepted tax id is a string of 11 or 14 characters |
| Schema.KindName | doimaker.js:399 | the `type` of each descriptor kind is the string `typeof` yields for its values |
| Property.OneOfIncludes | doimaker.js:402-408 | the `oneOf` search finds a const exactly when the value is among the consts |
| Property.Validate | doimaker.js:398-441 | `validate` returns null or its argument unchanged; in doimaker.js the argument exactly when it is null or conforms (type, menu, lengths, format); in src/doimaker.js the same, and additionally null for values below zero |
| Property.ValidateIdempotent | src/doimaker.js:86-91 | `validate(null)` is null and validating twice changes nothing, so `setValue` and `forceValue` differ only on invalid input |
| Property.SrcGuardIsRedundant | src/doimaker.js:110-117 | the newer `propValue < 0` guard never changes the result: the two generations validate alike |
| Property.MenuRefusesNonStrings | src/doimaker.js:107-117 | a menu descriptor of type "string" refuses every number and boolean |
| Property.ValidatePassesExactlyConforming | doimaker.js:398-441 | validation yields a non-null result exactly for conforming values |
| EntityRules.NullValues | src/doimaker.js:182-192 | the constructor creates one property per schema field, each holding null |
| EntityRules.IsCompleteSpec | doimaker.js:510-523 | the completeness rule: every held property validates truthy and every required name is held; CheckComplete proves the source loop equal to it, and NullFieldBlocksCompleteness and RequiredOutsideSchemaNeverComplete state its two ways of failing |
| EntityRules.FreshEntityIncomplete | doimaker.js:510-523 | a freshly constructed entity is never complete, because its null fields fail `validate` |
| EntityRules.NullFieldBlocksCompleteness | doimaker.js:515-516 | any held property whose value validates falsy (optional or not) makes `isComplete` false |
| EntityRules.RequiredOutsideSchemaNeverComplete | doimaker.js:517-522 | a required name that is not a property of the entity is never struck off, so `isComplete` is false whatever the values |
| EntityRules.CheckComplete | doimaker.js:510-523 | the scan that fails on the first falsy property and strikes required names off a set returns exactly the declarative completeness rule |
| SubjectRules.EachClauseIsNecessary | src/doimaker.js:297-309 | failing any one clause of the party rule (identified tax id, not its own representative, estate ⇒ executor, spouse ⇒ spouse id and regime) makes the party inconsistent |
| SubjectRules.SubjectConsistent | doimaker.js:560-573 | the party rule: the tax id is marked identified with `=== true`, it is not among the representatives, an estate names its executor, and a married party has the spouse's id flag and the regime; EachClauseIsNecessary and IdentifiedMeansStrictTrue state each clause's effect (the same rule at src/doimaker.js:297-309) |
| SubjectRules.IdentifiedMeansStrictTrue | src/doimaker.js:298 | `=== true` is strict: a truthy non-boolean does not mark the tax id as identified |
| OrderedSets.Include | doimaker.js:707 | `set.add(x)` keeps distinct members and their order, appending x only when absent |
| OrderedSets.Exclude | doimaker.js:719 | `set.delete(x)` never lengthens the set; ExcludeMembers, ExcludeAppend and ExcludeSnoc state that it removes exactly x and keeps the others in order |
| OrderedSets.ExcludeAppend | doimaker.js:719 | deleting from a concatenation deletes from each part and keeps the parts in order |
| OrderedSets.ExcludeSnoc | doimaker.js:719 | deletion keeps each other member in its place after the ones before it, and drops x |
| OrderedSets.ExcludeMembers | doimaker.js:719 | after deletion the members are exactly the old ones other than x |
| OrderedSets.ExcludeAbsent | doimaker.js:745 | deleting an absent member changes nothing |
| OrderedSets.DistinctExclude | doimaker.js:719 | deletion keeps the members distinct |
| OrderedSets.ExcludeUndoesInclude | doimaker.js:739-745 | adding a new member and deleting it again restores the collection |
| Flattening.Flatten | src/doimaker.js:693-700 | the concatenation of the record lists has as many records as the lists together |
| Flattening.FlattenAt | src/doimaker.js:693-700 | record j of list i is record `Offset(i) + j` of the concatenation |
| RegistryFacts.DoiMenusAreDigitStrings | src/doischema.js:2-698 | every `oneOf` descriptor of the newer registry has type "string" and decimal-digit string consts |
| RegistryFacts.RootMenusAreDigitStrings | doimaker.js:787-1539 | the same for the registry embedded in doimaker.js |
| RegistryFacts.DoiImovelMenusAreDigitStrings | src/doischema.js:275-696 | the five property menus (`destinacao`, `tipoImovel`, `tipoOperacaoImobiliaria`, `tipoParteTransacionada`, `formaPagamento`) are digit-string menus, and no other property field has one |
| RegistryFacts.RootImovelMenusAreDigitStrings | doimaker.js:1106-1538 | the same for the embedded property schema |
| RegistryFacts.DoiRegistryMenus | src/doischema.js:2-698 | every schema of the newer registry, looked up by name, has well-formed menus |
| RegistryFacts.RootRegistryMenus | doimaker.js:787-1539 | every schema of the older registry, looked up by name, has well-formed menus |
| RegistryFacts.SrcValidationMatchesRoot | src/doimaker.js:106-150 | on every descriptor of the registry the newer `validate` agrees with the older one, and a menu field refuses numbers and booleans |
| RegistryFacts.RootMenusRefuseNonStrings | doimaker.js:402-408 | the older registry's menu fields refuse numbers and booleans too |
| RegistryFacts.NiAdmitsElevenToFourteen | src/doischema.js:96-100 | `ni` admits only strings whose `.length` (UTF-16 code units) is 11 to 14 in both party schemas, and every valid CPF or CNPJ fits |
| RegistryFacts.SpouseAndExecutorCpfHaveElevenCharacters | src/doischema.js:133-138 | `cpfConjuge` and `cpfInventariante` admit exactly the strings of `.length` 11 |
| RegistryFacts.DeclarationMenu | src/doischema.js:4-14 | `tipoDeclaracao` admits only "0" |
| RegistryFacts.ServiceMenu | src/doischema.js:15-33 | `tipoServico` admits only "1", "2" and "3" |
| RegistryFacts.RegistryBookAndSheetLengths | src/doischema.js:75-84 | `registroImobiliarioPatrimonial` needs a `.length` of exactly 13; `numeroLivro` and `folha` take at most 7 |
| RegistryFacts.AtoFormattedFields | src/doischema.js:65-74 | the act's only date fields are `dataLavraturaRegistroAverbacao` and `dataNegocioJuridico`, and it has no int32 field |
| RegistryFacts.ImovelDateFields | src/doischema.js:668-672 | the property's only date field is `mesAnoUltimaParcela` |
| RegistryFacts.ImovelInt32Fields | src/doischema.js:445-449 | the property's only int32 field is `transcricao` |
| RegistryFacts.ImovelUnformattedFields | src/doischema.js:275-696 | every other property field carries no format |
| RegistryFacts.PartyFieldsUnformatted | src/doischema.js:95-274 | the party schemas carry no format |
| RegistryFacts.FormattedValues | doimaker.js:426-440 | a date field admits exactly the `dddd-dd-dd` strings that parse, an int32 field exactly the integers in (0, 100000000) |
| RootEntity.DoiEntity.constructor | doimaker.js:472-484 | one property per field of the named schema, each null; none for a name the registry object inherits from `Object.prototype` |
| RootEntity.DoiEntity.ForceProp | doimaker.js:497-502 | the property gets the value unchecked; a name with no descriptor throws and changes nothing |
| RootEntity.DoiEntity.SetProp | doimaker.js:504-508 | the property gets `validate(v)`; a name with no descriptor throws |
| RootEntity.DoiEntity.IsComplete | doimaker.js:510-523 | `isComplete` is the declarative completeness rule |
| RootEntity.NewEntity | doimaker.js:472-481 | construction fails exactly for a name that is neither a schema nor inherited from `Object.prototype` (`Object.keys(undefined)`; the guard `!schemaName in doiDefs` never fires), or for an empty required list; an inherited name yields an entity with no properties, a schema name its all-null entity |
| RootSubject.PositionName | doimaker.js:575-583 | each position names a schema of the registry |
| RootSubject.PartySchemasHaveConsistencyFields | doimaker.js:560-573 | both party schemas have every field the consistency rule reads |
| RootSubject.Subject.constructor | doimaker.js:534-543 | a party of the given position, all fields null, no representatives |
| RootSubject.Subject.IsValid | doimaker.js:526-529 | `isValid` is completeness and the party rule, with the representatives list empty |
| RootSubject.Snapshots | doimaker.js:711-716 | the current values of each registered party, in order |
| RootOperacao.TotalNotInherited | doimaker.js:586-588 | "total" is not an inherited name, so the running total is an own property |
| RootOperacao.Shares | doimaker.js:590-608 | the recorded shares are the finite numbers held under every key but `total` |
| RootOperacao.AddPersonSpec | doimaker.js:590-601 | `addPerson`: a fraction that is a number in (0, 100] for a key that reads falsy is stored and added to `total`, after the key is put last; otherwise the table is unchanged; AddPersonKeepsInvariant, AddedShares and AddedTotalIsSum state its effect on the shares |
| RootOperacao.RemovePersonSpec | doimaker.js:602-607 | `removePerson`: a key that reads truthy has its value subtracted from `total` and is deleted; otherwise the table is unchanged; RemovePersonKeepsInvariant, RemovedShares and RemovedTotalIsSum state its effect |
| RootOperacao.IsValidSpec | doimaker.js:609-611 | `isValid`: `total` is a finite number in 98..100; ValidIsShareSumInBand restates it as the share sum under the invariant |
| RootOperacao.Healthy | doimaker.js:586-611 | the invariant `addPerson` and `removePerson` keep for ordinary keys: the names are distinct, `total` is first and equals the sum of the shares, and every other key is ordinary (neither `total`, inherited nor an array index) and holds a share in (0, 100] |
| RootOperacao.DigitKeyIsOrdinary | doimaker.js:594-597 | a digit string of eleven or more characters, such as a valid CPF or CNPJ, is an ordinary key |
| RootOperacao.NewTableHealthy | doimaker.js:586-588 | the constructor's `{total: 0}` satisfies the invariant and records no share |
| RootOperacao.AddPersonKeepsInvariant | doimaker.js:590-601 | with an ordinary key, `addPerson` keeps total = Σ shares with each share in (0, 100]; it records the share exactly when the key is unrecorded and the fraction is a number in (0, 100], and otherwise changes nothing |
| RootOperacao.RemovePersonKeepsInvariant | doimaker.js:602-607 | `removePerson` keeps the invariant, drops exactly that share and subtracts it from the total; an unrecorded key changes nothing |
| RootOperacao.AddedShares | doimaker.js:598-599 | an accepted addition records exactly the new share |
| RootOperacao.AddedTotalIsSum | doimaker.js:598-599 | an accepted addition keeps the total equal to the sum |
| RootOperacao.RemovedShares | doimaker.js:604-605 | a removal drops exactly that share |
| RootOperacao.RemovedTotalIsSum | doimaker.js:604-605 | a removal keeps the total equal to the sum |
| RootOperacao.SumSharesRemove | doimaker.js:604-605 | subtracting a share and deleting its key takes exactly that share off the sum |
| RootOperacao.ValidIsShareSumInBand | doimaker.js:609-611 | under the invariant, `isValid` holds exactly when the recorded shares sum to 98..100 |
| RootOperacao.TotalKeyCorruptsTable | doimaker.js:590-600 | a party whose tax id reads "total" overwrites the running total: the table is then valid with no share recorded |
| RootOperacao.InheritedNamePoisonsTotal | doimaker.js:602-606 | `removePerson("constructor")` subtracts a function from the total, which becomes NaN; no later addition or removal makes the table valid again |
| RootOperacao.Operacao.constructor | doimaker.js:586-588 | a new table holds only `total = 0` |
| RootOperacao.Operacao.AddPerson | doimaker.js:590-601 | the table becomes `addPerson`'s result for the party's tax id as a key |
| RootOperacao.Operacao.RemovePerson | doimaker.js:602-607 | the table becomes `removePerson`'s result |
| RootOperacao.Operacao.IsValid | doimaker.js:609-611 | `isValid` is the 98..100 band on `total` |
| RootImovel.AsWrittenImovelNeverComplete | doimaker.js:619-633 | with the required list as written, no property is ever complete |
| RootImovel.RequiredListIsTheSchemaPart | doimaker.js:619-633 | the corrected list is every written name that is a property field, and each of its names is one |
| RootImovel.RequiredNamesInSchema | doimaker.js:619-633 | every name of the corrected required list is a field of the property schema |
| RootImovel.TipoServicoNotImovelField | doimaker.js:631 | `tipoServico`, required by the written list, is not a property field (likewise the three lemmas beside it for the other act fields) |
| RootImovel.AddMunicipioSpec | doimaker.js:661-665 | adding a municipality code keeps the codes distinct and adds it; anything but a seven-digit string is ignored |
| RootImovel.RemoveMunicipioSpec | doimaker.js:667-671 | removing anything but a seven-digit string changes nothing |
| RootImovel.MunicipioRemoval | doimaker.js:667-671 | removal keeps the codes distinct, removes exactly that code, and undoes a fresh addition |
| RootImovel.SetShareReplaces | doimaker.js:645-658 | setting a share keeps the invariant and replaces the party's previous share: the new one when it is a number in (0, 100], none otherwise |
| RootImovel.Imovel.constructor | doimaker.js:619-638 | an all-null property on the corrected required list (see Findings), with two empty share tables and no other municipalities |
| RootImovel.Imovel.SetAlienante | doimaker.js:645-649 | the transfer table becomes the replace-share result for the party's key |
| RootImovel.Imovel.RemoveAlienante | doimaker.js:651 | the transfer table becomes `removePerson`'s result |
| RootImovel.Imovel.SetAdquirente | doimaker.js:653-657 | the acquisition table becomes the replace-share result |
| RootImovel.Imovel.RemoveAdquirente | doimaker.js:659 | the acquisition table becomes `removePerson`'s result |
| RootImovel.Imovel.AddMunicipio | doimaker.js:661-665 | the codes become `AddMunicipioSpec` of the old codes |
| RootImovel.Imovel.RemoveMunicipio | doimaker.js:667-671 | the codes become `RemoveMunicipioSpec` of the old codes |
| RootImovel.Imovel.IsConsistent | doimaker.js:673-676 | consistent exactly when both share tables are valid |
| RootImovel.Imovel.IsValid | doimaker.js:526-529 | `isValid` is completeness and consistency |
| RootAto.Ato.constructor | doimaker.js:684-694 | an all-null act with no parties and no properties |
| RootAto.Ato.IncludeAlienante | doimaker.js:704-709 | the transferor is registered exactly when it is a transferor and valid now; the other registries are unchanged |
| RootAto.Ato.IncludeAdquirente | doimaker.js:722-727 | the same for acquirers |
| RootAto.Ato.RemoveAlienante | doimaker.js:718-720 | exactly that transferor leaves; the rest keep their order |
| RootAto.Ato.RemoveAdquirente | doimaker.js:735-737 | exactly that acquirer leaves |
| RootAto.Ato.GetAlienanteByNi | doimaker.js:711-716 | returns the first registered transferor whose `ni` is loosely equal to the argument, or null when none is |
| RootAto.Ato.GetAdquirenteByNi | doimaker.js:728-733 | the same among the acquirers |
| RootAto.Ato.AddImovel | doimaker.js:739-744 | the property is registered exactly when it is valid now, on the corrected required list (see Findings) |
| RootAto.Ato.RemoveImovel | doimaker.js:745 | exactly that property leaves |
| RootAto.Ato.IsValid | doimaker.js:526-528 | `isValid` of an act is its completeness, its consistency being constant |
| RootAto.Ato.GenerateDoi | doimaker.js:750-783 | the record is the corrected `generateDoi` of the property in the current state |
| RootAto.Ato.RecordsAre | doimaker.js:750-783 | record k of the act's snapshot is the record `generateDoi` yields for its property k |
| RootAto.CopyValues | doimaker.js:752-756 | every property value copied under its own name |
| RootAto.FindIndex | doimaker.js:711-716 | the search loop returns the first loose match |
| RootAto.Entries | doimaker.js:762-781 | one entry per recorded share, `total` skipped, in the table's order |
| RootAto.GenerateDoiFrom | doimaker.js:750-783 | the body yields the corrected record |
| RootAto.ImovelStates | doimaker.js:698 | one snapshot per registered property, in order |
| RootGenerate.ValuesJson | doimaker.js:752-756 | the record has the entity's field names, each with its value |
| RootGenerate.EntriesAsWritten | doimaker.js:762-781 | as written, one entry per enumerable key of the table, `total` included, each holding only a `participacao` |
| RootGenerate.GenerateDoiAsWritten | doimaker.js:750-783 | as written, the act's fields, the property fields that share a name with an act field, and the as-written entry lists; AsWrittenOmitsImovelFields and AsWrittenCountsTotalAsParty state what it gets wrong |
| RootGenerate.AsWrittenOmitsImovelFields | doimaker.js:757-761 | as written, the record holds no property field: the loop tests the act's own properties, and the two schemas share no name |
| RootGenerate.AtoAndImovelSchemasDisjoint | doimaker.js:968-1538 | no field name is shared by the act and property schemas |
| RootGenerate.AtoFieldNames | doimaker.js:968-1105 | the field names of the embedded act schema |
| RootGenerate.AsWrittenCountsTotalAsParty | doimaker.js:763-770 | as written, for a healthy table (no array-index key) the first entry is `total` itself, and the entries' shares sum to twice the recorded shares |
| RootGenerate.EntriesAsWrittenSum | doimaker.js:763-770 | the as-written entries sum to the shares plus the total |
| RootGenerate.FindByNi | doimaker.js:711-716 | the first party whose `ni` is loosely equal, or none when no party matches |
| RootGenerate.FindByNiIsFirstMatch | doimaker.js:711-716 | the match found is the first, and nothing is found when nothing matches |
| RootGenerate.EntriesFor | doimaker.js:762-781 | the corrected entries: no more than the keys |
| RootGenerate.EntryFor | doimaker.js:764-769 | corrected, one entry: the share under `participacao`, overlaid by the fields of the party found for the key; EntryCarriesShare states that the share is kept |
| RootGenerate.DoiRecord | doimaker.js:750-783 | the corrected record: the act's fields, overlaid by the property's, and the two corrected entry lists; DoiRecordFields states its fields as an iff |
| RootGenerate.DoiRecordFields | doimaker.js:750-783 | the corrected record holds every act field, every property field, and the two entry lists |
| RootGenerate.EntryCarriesShare | doimaker.js:764 | an entry carries the share it was made for |
| RootGenerate.EntriesForSum | doimaker.js:762-781 | the corrected entries' shares sum to the recorded shares |
| RootGenerate.CorrectedEntriesSumToTotal | doimaker.js:762-781 | for a healthy table, the corrected entries sum to the table's `total`, and there are fewer entries than keys |
| RootGenerate.EntriesForSkipsTotal | doimaker.js:763 | `total` yields no entry |
| RootGenerate.PartySchemasLackParticipacao | doimaker.js:788-967 | the party schemas have no `participacao` field |
| RootGenerate.ActRecordsOf | doimaker.js:1893-1899 | one record per property of the act, in order |
| RootApp.ActStates | doimaker.js:1893-1894 | one snapshot per act, in order |
| RootApp.RecordLists | doimaker.js:1893-1899 | one record list per act |
| RootApp.RecordAt | doimaker.js:1892-1900 | record `Offset(i) + j` of `object` is the record `generateDoi` yields for property j of act i |
| RootApp.Declaracoes | doimaker.js:1895-1897 | the inner loop yields the act's records |
| RootApp.AllDeclaracoes | doimaker.js:1893-1899 | the outer loop yields the concatenation of the acts' records |
| RootApp.App.constructor | doimaker.js:1789-1806 | the app starts with one empty act |
| RootApp.App.New | doimaker.js:1807-1811 | `new()` appends one fresh empty act and keeps the others |
| RootApp.App.Add | doimaker.js:1813-1816 | `add(act)` appends the act |
| RootApp.App.Object | doimaker.js:1892-1900 | `object` is `{declaracoes}` with every act's records, act after act, on the corrected required list and the corrected `generateDoi` (see Findings) |
| SrcEntity.StoreKeepsOrReplaces | src/doimaker.js:99-104 | the setter stores the new value exactly when it validates truthy and otherwise keeps the old one; storing a falsy value is a no-op |
| SrcEntity.Store | src/doimaker.js:99-104 | the setter: the new value when it validates truthy, otherwise the previous one; StoreKeepsOrReplaces and StorePreservesAcceptance state its effect |
| SrcEntity.SetValueIsForceValue | src/doimaker.js:86-91 | `setValue(v)` and `forceValue(v)` store the same thing |
| SrcEntity.StorePreservesAcceptance | src/doimaker.js:99-104 | a property holding null or an accepted value keeps doing so after any store |
| SrcEntity.StoreFields | src/doimaker.js:709-711 | the loop over held properties stores each record member through the setter |
| SrcEntity.StoreAll | src/doimaker.js:709-711 | the held properties after each receives the record's member of its name through the setter; StoreAllIntoNull and StoreAllKeepsAccepted state the result |
| SrcEntity.StoreAllKeepsAccepted | src/doimaker.js:709-711 | `setValues` keeps an entity that holds only null or accepted values so |
| SrcEntity.StoreAllIntoNull | src/doimaker.js:708-711 | loading a record into a fresh entity gives each property the record's member exactly when it validates truthy and null otherwise, so the entity holds only accepted values |
| SrcEntity.DoiEntity.constructor | src/doimaker.js:182-192 | the entity is built on the registry's schema for its name, all properties null; a name the registry object inherits from `Object.prototype` passes `schemaName in doiDefs` and gets no properties |
| SrcEntity.DoiEntity.SetValue | src/doimaker.js:89-91 | a held property passes `validate(v)` to the setter; an absent one throws and changes nothing |
| SrcEntity.DoiEntity.ForceValue | src/doimaker.js:86-88 | a held property passes v to the setter |
| SrcEntity.DoiEntity.SetProp | src/doimaker.js:211-215 | a new null property receiving `validate(v)`; a name with no descriptor throws |
| SrcEntity.DoiEntity.ForceProp | src/doimaker.js:205-209 | a new null property receiving v |
| SrcEntity.DoiEntity.Detach | src/doimaker.js:474 | a subclass overwriting a property with another object: the entity no longer holds it |
| SrcEntity.DoiEntity.SetValues | src/doimaker.js:709-711 | every held property receives the record's member through the setter, and no property is added or lost |
| SrcEntity.DoiEntity.IsComplete | src/doimaker.js:217-230 | `isComplete` is the declarative completeness rule, taken alike over the held values and over the getters' readings |
| SrcEntity.NewEntity | src/doimaker.js:182-192 | construction fails exactly for a name that is neither a schema nor inherited from `Object.prototype`, or for an empty required list; an inherited name yields an entity with no properties, a schema name its registered all-null entity |
| SrcEntity.RestReading | src/doimaker.js:152-178 | what the widget built for a descriptor shows before anything is stored (a menu or text or date input "", a number input 0, a checkbox false) is never null, always falsy and loosely zero |
| SrcEntity.Reading | src/doimaker.js:93-97 | the `value` getter never yields null: an unset property reads its widget at rest, a stored value reads back as itself (a menu as its option's text) |
| SrcEntity.ReadingKeepsVerdicts | src/doimaker.js:93-97 | over string menus and accepted values, reading through the widget keeps `validate`'s verdict, truthiness and `=== true`, and an unset property reads loosely zero |
| SrcEntity.CompletenessThroughReadings | src/doimaker.js:217-230 | `isComplete` on the readings is `isComplete` on the held values, and every non-null value reads back as itself |
| SrcEntity.DoiEntity.Read | src/doimaker.js:93-97 | the getters of all held properties: the same names, none reading null |
| SrcEntity.StoreKeepsEntityAccepted | src/doimaker.js:99-104 | an entity with only null or accepted values keeps that property under any store |
| SrcEntity.NullValuesAccepted | src/doimaker.js:190-192 | a fresh entity holds only accepted (null) values |
| SrcSubject.PartySchemasHaveConsistencyFields | src/doimaker.js:297-309 | both party schemas have every field the rule reads |
| SrcSubject.RepsOf | src/doimaker.js:244-252 | the `list` getter gives one `{ni}` per valid input, in input order |
| SrcSubject.RepNisExact | src/doimaker.js:247-250 | a tax id is listed exactly when it is one of the inputs and a valid CPF or CNPJ |
| SrcSubject.RepNisAppend | src/doimaker.js:246-251 | the list keeps input order: the list of a concatenation is the concatenation of the lists |
| SrcSubject.RepsMentionExactlyRepNis | src/doimaker.js:300 | some entry of the list has a given `ni` exactly when it is one of the valid inputs |
| SrcSubject.AnyRepIs | src/doimaker.js:300 | the `some` loop finds an entry with that `ni` exactly when one exists |
| SrcSubject.RepList.constructor | src/doimaker.js:239-243 | no inputs |
| SrcSubject.RepList.Add | src/doimaker.js:253-256 | one more input holding the given text, or "" |
| SrcSubject.RepList.Remove | src/doimaker.js:262-265 | the entry's input is removed and the others keep their order |
| SrcSubject.RepList.List | src/doimaker.js:244-252 | the loop yields `RepsOf` of the inputs |
| SrcSubject.Subject.constructor | src/doimaker.js:274-286 | a party of the position, on its registry schema, all null, no representatives |
| SrcSubject.Subject.IsConsistent | src/doimaker.js:297-309 | `isConsistent` is the shared party rule over the valid representative tax ids, taken alike over the held values and over the getters' readings |
| SrcSubject.ConsistencyThroughReadings | src/doimaker.js:297-309 | on an entity that holds only accepted values, the party rule gives the same verdict over the getters' readings as over the held values |
| SrcSubject.Subject.IsValid | src/doimaker.js:233-235 | `isValid` is completeness and the party rule, over the held values and over the readings alike |
| SrcSubject.SubjectList.constructor | src/doimaker.js:323-338 | an empty list for the position |
| SrcSubject.SubjectList.Add | src/doimaker.js:348-366 | adding keeps an existing party in its place and appends a new one |
| SrcSubject.SubjectList.Remove | src/doimaker.js:361-362 | exactly that party leaves |
| SrcSubject.Subject.Ni | src/doimaker.js:93-97 | `ni.value` is the stored tax id, or a falsy non-null reading while none is stored |
| SrcSubject.SubjectList.GetSubjectByNi | src/doimaker.js:367-370 | the first party whose tax id is strictly equal, or nothing exactly when none is |
| SrcSubject.NewSubjectList | src/doimaker.js:323-329 | only the titles "Alienantes" and "Adquirentes" make a list, of the matching position; any other throws |
| SrcOperacao.Put | src/doimaker.js:397 | `operacao[k] = f` keeps the keys distinct, appends a new key, keeps an existing key's place, and stores the share |
| SrcOperacao.ListOf | src/doimaker.js:388-400 | `list`: each row with a chosen option whose label and number pass `validate` stores its number under the label, in first-assignment order; ListWellFormed, ListKeysExact, ListLastRowWins and ListKeysAndSharesValid state the result |
| SrcOperacao.SumRows | src/doimaker.js:381-387 | `total`: the numbers of all rows, filtered or not; SumRowsRemove and ValidWithoutShares state its behaviour |
| SrcOperacao.TableValid | src/doimaker.js:442-444 | `isValid`: the total lies in 98..100 |
| SrcOperacao.ListKeysNotArrayIndices | src/doimaker.js:493 | no key of `list` is an array index, so `Object.keys` lists them in first-assignment order |
| SrcOperacao.ListWellFormed | src/doimaker.js:388-400 | `list` names every key once, and exactly the keys holding a share |
| SrcOperacao.ListKeysAndSharesValid | src/doimaker.js:396-397 | every key of `list` is a valid CPF or CNPJ and every share lies in (0, 100] |
| SrcOperacao.ListKeysExact | src/doimaker.js:388-400 | a label is a key of `list` exactly when some row contributes it |
| SrcOperacao.ListLastRowWins | src/doimaker.js:397 | the share under a key is the number of the last row contributing it |
| SrcOperacao.ValidWithoutShares | src/doimaker.js:381-387 | `total` counts rows `list` drops: a table with one unchosen row of 99 is valid while listing no share |
| SrcOperacao.SumRowsRemove | src/doimaker.js:430-431 | deleting a row takes exactly its number off the total |
| SrcOperacao.ListRows | src/doimaker.js:388-400 | the `list` loop yields `ListOf` of the rows |
| SrcOperacao.TotalRows | src/doimaker.js:381-387 | the `total` loop sums every row's number |
| SrcOperacao.Operacao.constructor | src/doimaker.js:374-380 | a new table has no rows |
| SrcOperacao.Operacao.Add | src/doimaker.js:401-429 | one more row, appended |
| SrcOperacao.Operacao.Remove | src/doimaker.js:430-431 | the row is removed and the others keep their order |
| SrcOperacao.Operacao.Total | src/doimaker.js:381-387 | the sum of all rows' numbers |
| SrcOperacao.Operacao.List | src/doimaker.js:388-400 | the filtered shares |
| SrcOperacao.Operacao.IsValid | src/doimaker.js:442-444 | valid exactly when the total lies in 98..100 |
| SrcRecords.FindParty | src/doimaker.js:494 | the first party whose tax id is strictly equal, or none when no party has it |
| SrcRecords.Entry | src/doimaker.js:496-515 | one participant entry: key and share, the filtered party fields, then the CNPJ, spouse and representative rules; EntryKeyAndShare, EntryCnpjHasNoSpouse, EntrySpouseRules, EntryRepresentatives and EntryFilteredFields state each part |
| SrcRecords.ParticipantesOf | src/doimaker.js:490-520 | `participantes`: one entry per key that a party matches, in key order; ParticipantesAppend, ParticipantesOfOne, ParticipantesFromKeys, ParticipantesLength and ParticipantesCount state its shape |
| SrcRecords.EntryKeyAndShare | src/doimaker.js:496 | an entry always carries its key as `ni` and its share as `participacao` |
| SrcRecords.EntryCnpjHasNoSpouse | src/doimaker.js:505-507 | a key whose `.length` is 14 (a CNPJ) never carries `indicadorConjuge` |
| SrcRecords.EntrySpouseRules | src/doimaker.js:508-512 | a married party's entry says the spouse does not take part, and carries the spouse-identified flag as emitted or false |
| SrcRecords.EntryRepresentatives | src/doimaker.js:513-515 | `representantes` is attached exactly when `indicadorRepresentante` is emitted truthy, and is then the party's list |
| SrcRecords.EntryFilteredFields | src/doimaker.js:497-503 | every other field appears exactly when its value is `!= 0` or required, with the party's value |
| SrcRecords.ParticipantesAppend | src/doimaker.js:490-520 | `participantes` keeps the order of the table's keys |
| SrcRecords.ParticipantesOfOne | src/doimaker.js:494-517 | an unmatched key adds nothing; a matched one adds the entry of the first matching party |
| SrcRecords.ParticipantesFromKeys | src/doimaker.js:490-520 | every entry comes from a distinct key of the table, in order |
| SrcRecords.ParticipantesLength | src/doimaker.js:490-520 | no more entries than keys |
| SrcRecords.ParticipantesCount | src/doimaker.js:490-520 | with no party matching, no entry; with every key matched, one entry per key |
| SrcRecords.ImovelDoiFixedFields | src/doimaker.js:522-534 | the `doi` object always has the municipality and both participant lists, and the fiduciary flag false when the payment form is "7" |
| SrcRecords.ImovelDoiFilteredFields | src/doimaker.js:524-528 | every other property field appears exactly when it passes the filter, with its value |
| SrcRecords.ImovelDoiOf | src/doimaker.js:522-534 | `Imovel.doi`: the municipality, the filtered fields, the fiduciary flag for payment form "7", and both participant lists; ImovelDoiFixedFields and ImovelDoiFilteredFields state its fields |
| SrcRecords.Declaracao | src/doimaker.js:621 | `{...atoDoi, ...imovel.doi}`: the property's fields override the act's |
| SrcRecords.DeclaracoesOf | src/doimaker.js:610-624 | `declaracoes`: one record per property of the act, in order; DeclaracoesOverlay states its records |
| SrcRecords.DeclaracoesOverlay | src/doimaker.js:610-624 | one record per property, in order: the act's filtered fields overlaid by the property's `doi`, the property winning on a shared name |
| SrcImovel.AsWrittenImovelNeverComplete | src/doimaker.js:463-473 | with the required list as written, no property is ever complete |
| SrcImovel.TipoServicoNotImovelField | src/doischema.js:275-696 | the property schema has no `tipoServico` |
| SrcImovel.RequiredNamesInSchema | src/doimaker.js:463-473 | every name of the corrected list is a property field other than the municipality |
| SrcImovel.PartySchemasLackEntryNames | src/doimaker.js:496-515 | the party schemas have no `participacao` or `representantes` field, so an entry's own names are never overwritten |
| SrcImovel.MenuSelect | src/ui.js:183-186 | setting the municipality menu selects the code when it is an option and otherwise keeps or clears the selection |
| SrcImovel.MenuKeepsSelection | src/ui.js:183-186 | after a valid code is selected, setting one that is not an option keeps the selection |
| SrcImovel.CopyEmitted | src/doimaker.js:524-528 | the filter loop copies exactly the emitted fields |
| SrcImovel.FindPartyIndex | src/doimaker.js:494 | the `find` loop returns the first strictly equal party |
| SrcImovel.BuildEntry | src/doimaker.js:496-516 | the loop body builds the entry |
| SrcImovel.ParticipantesFrom | src/doimaker.js:490-520 | `participantes` yields the entries of the table's listed keys |
| SrcImovel.ImovelDoiFrom | src/doimaker.js:522-534 | the getter body yields the `doi` object |
| SrcImovel.UnsetFieldEmittedOnlyWhenRequired | src/doimaker.js:497-503 | a property still holding null reads loosely zero, so it is emitted exactly when required, and then as its widget's reading |
| SrcImovel.PartyStates | src/doimaker.js:485-488 | one snapshot per listed party, read through the getters |
| SrcImovel.Imovel.constructor | src/doimaker.js:463-479 | an all-null property on the corrected required list (see Findings; the municipality replaced by the menu) that shares the act's party lists and has two empty tables |
| SrcImovel.Imovel.SetMunicipio | src/doimaker.js:458 | the municipality becomes the menu's selection |
| SrcImovel.Imovel.IsConsistent | src/doimaker.js:559-562 | consistent exactly when both tables are valid |
| SrcImovel.Imovel.IsValid | src/doimaker.js:233-235 | `isValid` is completeness and consistency of both tables |
| SrcImovel.Imovel.Doi | src/doimaker.js:522-534 | the `doi` getter on the current state |
| SrcAto.AtoRequiredInSchema | src/doimaker.js:594-600 | every required name of an act is an act field |
| SrcAto.DeclaracoesFrom | src/doimaker.js:610-624 | the getter body yields one overlaid record per property |
| SrcAto.ImovelStates | src/doimaker.js:575-581 | one snapshot per property, in order |
| SrcAto.Ato.constructor | src/doimaker.js:594-605 | an all-null act with empty party lists and no properties |
| SrcAto.Ato.AddImovel | src/doimaker.js:582-589 | adding keeps an existing property in place and appends a new one |
| SrcAto.Ato.NewImovel | src/doimaker.js:571-572 | the add button appends a fresh property on the act's lists |
| SrcAto.Ato.RemoveImovel | src/doimaker.js:586-588 | exactly that property leaves |
| SrcAto.Ato.IsValid | src/doimaker.js:233-235 | completeness, act consistency being constant |
| SrcAto.Ato.Declaracoes | src/doimaker.js:610-624 | the `declaracoes` getter on the current state |
| SrcLoad.KeyText | src/doimaker.js:706 | the text a member converts to as part of a key; missing gives "undefined" |
| SrcLoad.RecordId | src/doimaker.js:706 | the act id is book, ':' and sheet |
| SrcLoad.RecordIdNeverInherited | src/doimaker.js:706-707 | an act id is never an inherited name nor an integer-like key, so `!acts[actId]` means "not seen yet" and `Object.values` keeps insertion order |
| SrcLoad.PrototypeKeysHaveNoColon | src/doimaker.js:707 | no inherited name of a plain object contains ':' |
| SrcLoad.NumberText | src/ui.js:122-139 | a number input accepts a text exactly when it converts to a finite number |
| SrcLoad.LoadedFraction | src/doimaker.js:757-763 | a missing or null share reads 0, a number reads as itself, the empty string reads 0, any other string reads as the number input takes it (throwing when it does not convert to a finite number), and an object makes the number input throw |
| SrcLoad.PartyNiDescriptor | src/doischema.js:96-100 | both party schemas describe `ni` alike |
| SrcLoad.PartyFields | src/doimaker.js:718-723 | a null party element throws; an object gives its members |
| SrcLoad.RepText | src/doimaker.js:725-727 | `reps.add(rep.ni)` throws exactly for a null element or an object whose `ni` is neither missing, null nor a string; a string `ni` is the text, and every other element (`{}`, a number, a boolean, a string, an array) gives "" |
| SrcLoad.RepTexts | src/doimaker.js:726-727 | one text per representative, each `RepText` of its element, when none throws |
| SrcLoad.RepInputs | src/doimaker.js:725-727 | a missing or falsy member gives no representative; an array gives `RepTexts` of its elements; a non-empty string is iterated by character, one "" each; an object or a truthy number or boolean is not iterable and throws |
| SrcLoad.RoleList | src/doimaker.js:730 | the act's list of the given position |
| SrcLoad.Cached | src/doimaker.js:716-719 | `subjects[ni]` is truthy when a party was cached under the key (in the shared cache as written, or the position's own one), or the key is inherited |
| SrcLoad.Extends | src/doimaker.js:730 | an act differs from its earlier self only by parties appended to its lists |
| SrcLoad.AddParty | src/doimaker.js:717-731 | one party element extends the act by at most one party, in its own position only |
| SrcLoad.AddParties | src/doimaker.js:717-748 | the `forEach` over a position's elements only appends parties |
| SrcLoad.LoadedChoice | src/doimaker.js:416-421 | a row chooses a party exactly when the element's `ni` is a non-empty string equal to the tax id of a listed party of that position |
| SrcLoad.RowsFor | src/doimaker.js:757-764 | one row per party element, in order |
| SrcLoad.FindAct | src/doimaker.js:707 | the act stored under an id, or none when no act has it |
| SrcLoad.LoadRecord | src/doimaker.js:705-766 | a record that does not throw is an object with both party arrays, and adds at most one act |
| SrcLoad.FirstRecord | src/doimaker.js:707-715 | the first record with the id, or none |
| SrcLoad.LoadRecordShape | src/doimaker.js:705-766 | one record adds a property to the act with its id, or appends a new act for it, and leaves every other act alone |
| SrcLoad.LoadIndex | src/doimaker.js:702-775 | there is an act for an id exactly when some record has it; its fields come from the first such record, and it has one property per record with the id |
| SrcLoad.LoadOrder | src/doimaker.js:767-774 | acts come in the order their ids first appear among the records |
| SrcLoad.LoadIdsDistinct | src/doimaker.js:706-715 | no two acts share an id |
| SrcLoad.LoadKeysWellFormed | src/doimaker.js:716-748 | within a position no two parties share a key and no key is inherited; with the shared cache a key is moreover in one position only |
| SrcLoad.PerRoleLoadListsEveryParty | src/doimaker.js:716-748 | with one cache per position, every party element of every record is listed, by its key, in its own position of that record's act |
| SrcLoad.SharedCacheDropsDualRoleParty | src/doimaker.js:713-748 | as written, a record in which one party sells and buys loads with no acquirer, and the acquisition row chooses no party |
| SrcLoad.DualRoleLoad | src/doimaker.js:702-775 | the record in which one party sells and buys loads to one act whose acquirers and acquisition row are whatever the acquirer step yields under the cache mode |
| SrcLoad.PerRoleCacheKeepsDualRoleParty | src/doimaker.js:713-748 | with one cache per position the same record lists the party among the acquirers too, and its acquisition row chooses it |
| SrcLoad.LoadStops | src/doimaker.js:702-775 | a record that throws leaves the maker with no act at all |
| SrcLoad.RepTextsStops | src/doimaker.js:726-727 | a representative that throws makes the whole list of representatives throw |
| SrcLoad.AddPartiesStops | src/doimaker.js:717-732 | a party element that throws makes the whole `forEach` throw |
| SrcLoad.RowsForStops | src/doimaker.js:757-764 | a share row that throws makes the whole row loop throw |
| SrcLoad.RepTextsFrom | src/doimaker.js:725-727 | the representatives loop yields `RepTexts` |
| SrcLoad.RepInputsFrom | src/doimaker.js:725-728 | the guarded loop yields `RepInputs` |
| SrcLoad.AddPartyStep | src/doimaker.js:718-731 | the step body yields `AddParty` |
| SrcLoad.AddPartiesFrom | src/doimaker.js:717-732 | the `forEach` yields `AddParties` |
| SrcLoad.FindChoice | src/doimaker.js:416-421 | the option search yields `LoadedChoice` |
| SrcLoad.RowsFrom | src/doimaker.js:757-764 | the row `forEach` yields `RowsFor` |
| SrcLoad.RecordPartiesFrom | src/doimaker.js:716-748 | the first half of a step yields `RecordParties` |
| SrcLoad.LoadRecordStep | src/doimaker.js:706-765 | one step yields `LoadRecord` |
| SrcLoad.LoadValues | src/doimaker.js:704-766 | the records in order, stopping at the first that throws |
| SrcLoad.LoadOf | src/doimaker.js:702-775 | `load`: the records applied in order, stopping at the first that throws; LoadIndex, LoadOrder, LoadIdsDistinct, LoadKeysWellFormed and LoadStops state the acts it yields |
| SrcDoiMaker.AddReps | src/doimaker.js:725-727 | the inputs get the texts appended, in order |
| SrcDoiMaker.BuildSubject | src/doimaker.js:719-730 | a fresh party of the position whose values are the element's members through the setter and whose inputs are its representatives |
| SrcDoiMaker.BuildParties | src/doimaker.js:717-748 | an empty list receives one fresh, loaded party per loaded party, in order |
| SrcDoiMaker.AddRows | src/doimaker.js:757-764 | the table gets the rows appended |
| SrcDoiMaker.NewImovel | src/doimaker.js:749-756 | a fresh property on the act's lists, with the municipality selected and the record's members stored |
| SrcDoiMaker.BuildImovel | src/doimaker.js:749-764 | a fresh property loaded with its municipality, fields and both tables' rows |
| SrcDoiMaker.AppendImovel | src/doimaker.js:765 | the act gets one more fresh, loaded property |
| SrcDoiMaker.BuildImoveis | src/doimaker.js:749-765 | the act gets one loaded property per record of its id, in order |
| SrcDoiMaker.NewAto | src/doimaker.js:707-715 | a fresh act with the first record's members stored |
| SrcDoiMaker.BuildAct | src/doimaker.js:706-765 | a fresh act with its fields, both party lists and its properties as loaded |
| SrcDoiMaker.BuildActs | src/doimaker.js:767-774 | one fresh, loaded act per loaded act, in order |
| SrcDoiMaker.ActStates | src/doimaker.js:694-695 | one snapshot per act, in order |
| SrcDoiMaker.DeclaracaoLists | src/doimaker.js:694-697 | one record list per act |
| SrcDoiMaker.DeclaracaoAt | src/doimaker.js:693-700 | record `Offset(i) + j` of `object` is record j of act i's `declaracoes` |
| SrcDoiMaker.AllDeclaracoes | src/doimaker.js:693-700 | the loop yields the concatenation of the acts' records |
| SrcDoiMaker.DoiMaker.constructor | src/doimaker.js:649-653 | the maker starts with no act |
| SrcDoiMaker.DoiMaker.NewAct | src/doimaker.js:654-662 | the add button appends one fresh, empty, valid act |
| SrcDoiMaker.DoiMaker.RemoveAct | src/doimaker.js:659-661 | exactly that act leaves |
| SrcDoiMaker.DoiMaker.Empty | src/doimaker.js:800-803 | no act is left |
| SrcDoiMaker.DoiMaker.Object | src/doimaker.js:693-700 | `object` is `{declaracoes}` with every act's records, act after act |
| SrcDoiMaker.DoiMaker.Load | src/doimaker.js:702-775 | the load succeeds exactly when the records can be read; then the maker holds one fresh act per loaded act with precisely the loaded values, and otherwise none |
| SrcDoiMaker.DoiMaker.Install | src/doimaker.js:767-774 | the maker's acts become the built ones |

## Left out

- Presentation: every `render()`, the widgets and pagers of doimaker.js:48-308, ui.js and src/ui.js, the colour switch and `init`. Only the values behind them are modelled. Input text is modelled where the loader depends on it.
- Storage and files: `save`, `resume`, `download`, `upload`, `json`, and the functions of src/storage.js and doimaker.js:1-44. They are browser I/O.
- Root `App.load` (doimaker.js:1818-1880): it uses undeclared names, calls `Array.has` and iterates `Object.keys` with `for…in`, so it fails on its first record.
- Root `Subject.addRepresentante`/`removeRepresentante` (doimaker.js:548-558): they call `add`/`delete` on a fresh array copy, which throws. The model keeps the representatives empty.
- `new Date(s)` parsing: engine dependent, so "parses as a date" is the `Host.dateParses` parameter. The `dddd-dd-dd` shape is exact.
- Floating point: shares and totals are exact reals. A sum of fractions can differ from IEEE arithmetic near the 98/100 bounds.
- Number printing: the text of a number (inside `numeroLivro + ':' + folha`) is the `Host.numberText` parameter.
- Number inputs: `NumberText` accepts the decimal literal forms a number input keeps and rejects the rest. Browser sanitisation of exotic texts is not modelled beyond that.
- `MunicipioList` depends on the table of IBGE codes, which is not part of this model. Its options are a parameter, and the municipality is the selected code text.
- The view-backed value getter (src/doimaker.js:93-97) is modelled by `SrcEntity.Reading` where records, tax-id lookups and emission filters read values. `DoiEntity.IsComplete`, `Subject.IsConsistent` and `Subject.IsValid` state their verdict over both the held values and the readings. `DoiEntity.Valid()` carries the two premises that make the two agree: every menu is a menu of strings, and every property holds null or an accepted value. The constructor establishes both and every setter keeps them (`SrcEntity.CompletenessThroughReadings`, `SrcSubject.ConsistencyThroughReadings`). Browser sanitisation of input text (a text input drops line breaks) is not modelled. The menu plumbing of `Operacao.add` and `SubjectList.add` is modelled only by the chosen label and the number.
- Pager order: party, property and act lists are in insertion order, which is the page order, since pages are only appended or deleted.
- Key order of records: records are maps, so the property order of the emitted JSON objects is not modelled. The order of list entries is.
- RootOperacao.Operacao.AddPerson, RootGenerate.EntriesAsWritten: a share table's keys are kept in insertion order. JavaScript enumerates array-index keys (such as "5") first, in ascending order. That order is not modelled for such keys, which only a forced tax id of ten digits or fewer can produce. `Healthy` excludes them, so the lemmas about healthy tables (`AsWrittenCountsTotalAsParty`, `CorrectedEntriesSumToTotal`) hold as stated. A valid CPF or CNPJ is never one (`RootOperacao.DigitKeyIsOrdinary`, `SrcOperacao.ListKeysNotArrayIndices`).
- Collisions of act ids: the id text is modelled, so two books and sheets that print alike group together, as in the source.
- Act-level consistency: it is constant true in both generations (doimaker.js:748, src/doimaker.js:639).
- SrcDoiMaker.DoiMaker.Load: models the loader with one party cache per position, the corrected behaviour (see Findings). As written, the shared cache is `SrcLoad.LoadOf` with `SharedCache`.
- SrcDoiMaker.DoiMaker.Load: the values are computed first (`SrcLoad.LoadValues`), and the objects are built from them afterwards. The source builds both at once. Only the end state is compared, and the source assigns the acts at the end as well.
- SrcDoiMaker.BuildSubject: states the loaded values, not `Subject.Valid` of the result. The constructor's ensures do state the party's schema and registry.
- RootImovel.Imovel.constructor, SrcImovel.Imovel.constructor: use the corrected required list (see Findings). With the list as written no property is ever complete (`RootImovel.AsWrittenImovelNeverComplete`, `SrcImovel.AsWrittenImovelNeverComplete`), so root `addImovel` never registers one and `object` yields `declaracoes: []`.
- RootAto.Ato.GetAlienanteByNi: the match is stated over the parties' values before the call, since it changes nothing.
- RootAto.Ato.GenerateDoi, RootApp.App.Object, SrcAto.Ato.Declaracoes, SrcImovel.Imovel.Doi, SrcDoiMaker.DoiMaker.Object: stated over the state they are called in, through snapshots, since they change nothing.

## Findings

| source | as written | input that shows it | evidently intended | confidence | as-written member | corrected member |
|---|---|---|---|---|---|---|
| doimaker.js:619-633 | the `Imovel` required list names the act fields `dataLavraturaRegistroAverbacao`, `dataNegocioJuridico`, `tipoDeclaracao`, `tipoServico` | any property, however filled in: `isComplete` is false, so `addImovel` rejects it | require only property fields | not executed | RootImovel.AsWrittenImovelNeverComplete | RootImovel.RequiredListIsTheSchemaPart |
| doimaker.js:757-761 | the property loop tests `this[prop]`, the act's property of the same name | any act and property: with disjoint schemas the record holds no property field | test `imovel[prop]` | not executed | RootGenerate.AsWrittenOmitsImovelFields | RootGenerate.DoiRecordFields |
| doimaker.js:763-780 | `for (const ni in imovel.alienacao)` enumerates `total` as a party, and `prop instanceof DoiProp` tests key strings | a table with one share of 100: two entries, the first for `total`, summing to 200, with no party fields | enumerate the recorded shares only and copy the party's fields | not executed | RootGenerate.AsWrittenCountsTotalAsParty | RootGenerate.CorrectedEntriesSumToTotal |
| src/doimaker.js:463-473 | the `Imovel` required list names `tipoServico`, which the property schema lacks | any property: `isComplete` is false | drop `tipoServico` from the list | not executed | SrcImovel.AsWrittenImovelNeverComplete | SrcImovel.RequiredNamesInSchema |
| src/doimaker.js:713-748 | one `_subjectCache` per act serves both positions | a record where party 11144477735 is both alienante and adquirente: it is loaded as a transferor only, and the acquisition row chooses no party | one cache per position | not executed | SrcLoad.SharedCacheDropsDualRoleParty | SrcLoad.PerRoleCacheKeepsDualRoleParty |
