/** `Subject.isConsistent`, the same rule in both generations: the party's
    tax id is marked identified, the party is not its own representative, an
    estate names its executor, and a married party states whether the
    spouse's CPF is identified and the property regime. */
module SubjectRules {
  import opened JsValues

  /** Which subclass a party is: `Alienante` (transferor) or `Adquirente` (acquirer). */
  datatype Position = Alienante | Adquirente

  /** The names `isConsistent` reads; both party schemas have all of them. */
  predicate HasConsistencyFields(values: map<string, Value>) {
    "ni" in values && "indicadorNiIdentificado" in values && "indicadorEspolio" in values &&
    "cpfInventariante" in values && "indicadorConjuge" in values &&
    "indicadorCpfConjugeIdentificado" in values && "regimeBens" in values
  }

  /** `isConsistent()`, given the tax ids of the party's representatives.
      The source's `(!a || b)` terms are exactly implications on truthiness,
      and `includes`/`some(rep.ni === ni)` are membership. */
  predicate SubjectConsistent(values: map<string, Value>, repNis: seq<Value>)
    requires HasConsistencyFields(values)
  {
    values["indicadorNiIdentificado"] == VBool(true) &&
    values["ni"] !in repNis &&
    (Truthy(values["indicadorEspolio"]) ==> Truthy(values["cpfInventariante"])) &&
    (Truthy(values["indicadorConjuge"]) ==>
       Truthy(values["indicadorCpfConjugeIdentificado"]) && Truthy(values["regimeBens"]))
  }

  /** Each clause of the rule is necessary: failing any one of them makes the
      party inconsistent, whatever the other fields hold. */
  lemma EachClauseIsNecessary(values: map<string, Value>, repNis: seq<Value>)
    requires HasConsistencyFields(values)
    ensures values["indicadorNiIdentificado"] != VBool(true) ==> !SubjectConsistent(values, repNis)
    ensures values["ni"] in repNis ==> !SubjectConsistent(values, repNis)
    ensures Truthy(values["indicadorEspolio"]) && !Truthy(values["cpfInventariante"]) ==>
            !SubjectConsistent(values, repNis)
    ensures Truthy(values["indicadorConjuge"]) && !Truthy(values["regimeBens"]) ==>
            !SubjectConsistent(values, repNis)
    ensures Truthy(values["indicadorConjuge"]) && !Truthy(values["indicadorCpfConjugeIdentificado"]) ==>
            !SubjectConsistent(values, repNis)
  {
  }

  /** `=== true` is strict: a truthy non-boolean such as "true" or 1 does not
      mark the tax id as identified. */
  lemma IdentifiedMeansStrictTrue(values: map<string, Value>, repNis: seq<Value>)
    requires HasConsistencyFields(values)
    requires values["indicadorNiIdentificado"] == VStr("true") || values["indicadorNiIdentificado"] == VNum(1.0)
    ensures !SubjectConsistent(values, repNis)
  {
  }
}
