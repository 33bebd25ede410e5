/** The rule catalogue: which field is required of which battery category, and who may see it. */
module Catalogue {
  datatype Category = EV | LMT | Industrial

  datatype Requirement =
    | Mandatory | OptionalIfAvailable | NotDisplayedDuplicate | DeferredFormatPending | DeferredUntilAugust2027
    | DeferredArticle8 | ConditionalIfApplicable | NotDisplayed | ConditionalIfCommercialWarranty
    | ConditionalIndustrialCycleApplications | ConditionalSomeIndustrialBatteries
    | MandatoryDynamic | ConditionalDynamic

  datatype Tier = PublicTier | LegitimateInterestModel | AuthorityOnly | LegitimateInterestItem

  datatype Field = Field(id: int, name: string, ev: Requirement, lmt: Requirement, industrial: Requirement, tier: Tier)

  function RequirementFor(f: Field, category: Category): Requirement {
    match category
    case EV => f.ev
    case LMT => f.lmt
    case Industrial => f.industrial
  }

  predicate IsRequired(r: Requirement) { r.Mandatory? || r.MandatoryDynamic? }

  predicate IsDeferred(r: Requirement) { r.DeferredFormatPending? || r.DeferredUntilAugust2027? || r.DeferredArticle8? }

  predicate IsHidden(r: Requirement) { r.NotDisplayed? || r.NotDisplayedDuplicate? }

  predicate IsConditional(r: Requirement) {
    || r.ConditionalIfApplicable? || r.ConditionalIfCommercialWarranty? || r.ConditionalIndustrialCycleApplications?
    || r.ConditionalSomeIndustrialBatteries? || r.ConditionalDynamic?
  }

  /** Asked for now: mandatory, or conditional and decided applicable. */
  predicate RequiredNow(f: Field, category: Category, applicable: set<int>) {
    var r := RequirementFor(f, category);
    IsRequired(r) || (IsConditional(r) && f.id in applicable)
  }

  /** The ids of the fields that are conditional for the category, in catalogue order. */
  function ConditionalIds(fields: seq<Field>, category: Category): seq<int> {
    if fields == [] then []
    else
      var last := fields[|fields| - 1];
      ConditionalIds(fields[..|fields| - 1], category) + if IsConditional(RequirementFor(last, category))
          then [last.id] else []
  }

  /** The field is mandatory for the category. */
  ghost predicate Always(f: Field, category: Category) {
    match category
    case EV => f.ev in {Mandatory, MandatoryDynamic}
    case LMT => f.lmt in {Mandatory, MandatoryDynamic}
    case Industrial => f.industrial in {Mandatory, MandatoryDynamic}
  }

  /** Whether the category has the field must be decided for each model. */
  ghost predicate OnCondition(f: Field, category: Category) {
    (match category case EV => f.ev case LMT => f.lmt case Industrial => f.industrial)
    in {ConditionalIfApplicable, ConditionalIfCommercialWarranty, ConditionalIndustrialCycleApplications,
        ConditionalSomeIndustrialBatteries, ConditionalDynamic}
  }

  lemma RequirementsMean(f: Field, category: Category)
    ensures IsRequired(RequirementFor(f, category)) <==> Always(f, category)
    ensures IsConditional(RequirementFor(f, category)) <==> OnCondition(f, category)
    ensures !(Always(f, category) && OnCondition(f, category))
  {
  }
}
