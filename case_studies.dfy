/**
 * The case-studies page: the `study` query parameter picks the first entry with that id, falling
 * back to the first entry. The list holds two entries with id 'cinco', so the second one can never
 * be picked.
 */
module CaseStudies {
  import opened Wrappers

  /**
   * One entry of the page's list. Besides the id, company and industry, `secondMetric` (the label
   * of its second result metric) is kept because it is where the two 'cinco' entries differ.
   */
  datatype CaseStudy = CaseStudy(id: string, company: string, industry: string, secondMetric: string)

  const Studies: seq<CaseStudy> := [
    CaseStudy("cinco", "Cinco", "Real Estate", "Increase in property inquiries"),
    CaseStudy("creative-orbit", "Creative Orbit", "Digital Marketing & Creative Agency", "Increase in feedback response rate"),
    CaseStudy("cinco", "Cinco", "Real Estate", "Increase in inquiries")
  ]

  /**
   * `studies.find(cs => cs.id === param)`, as an index: the first entry whose id equals the
   * parameter; a `null` parameter equals no id.
   */
  function FindById(studies: seq<CaseStudy>, param: Option<string>): (r: Option<nat>)
    ensures r.Some? ==> r.value < |studies| && param == Some(studies[r.value].id)
    ensures r.Some? ==> forall j :: 0 <= j < r.value ==> param != Some(studies[j].id)
    ensures r.None? ==> forall j :: 0 <= j < |studies| ==> param != Some(studies[j].id)
  {
    if studies == [] then None
    else if param == Some(studies[0].id) then Some(0)
    else match FindById(studies[1..], param)
      case None => None
      case Some(i) => Some(i + 1)
  }

  /** The `useState` initialiser: the entry found, or the first entry. */
  function InitialSelection(param: Option<string>): (s: CaseStudy)
    ensures s in Studies
    ensures FindById(Studies, param).Some? ==> s == Studies[FindById(Studies, param).value]
    ensures FindById(Studies, param).None? ==> s == Studies[0]
  {
    match FindById(Studies, param)
    case Some(i) => Studies[i]
    case None => Studies[0]
  }

  /** An entry whose id already occurs earlier in the list is never found. */
  lemma ShadowedEntryNeverFound(studies: seq<CaseStudy>, i: nat, j: nat, param: Option<string>)
    requires i < j < |studies| && studies[i].id == studies[j].id
    ensures FindById(studies, param) != Some(j)
  {
  }

  /** 'cinco' selects the first entry and 'creative-orbit' the second. */
  lemma KnownIds()
    ensures InitialSelection(Some("cinco")) == Studies[0]
    ensures InitialSelection(Some("creative-orbit")) == Studies[1]
    ensures InitialSelection(None) == Studies[0]
  {
    assert FindById(Studies, Some("cinco")) == Some(0);
    assert FindById(Studies, Some("creative-orbit")) == Some(1);
  }

  /** The page's selection: always an entry of the list other than the shadowed third one. */
  class CaseStudiesPage {
    var selected: CaseStudy

    ghost predicate Valid()
      reads this
    {
      selected in Studies && selected != Studies[2]
    }

    constructor (param: Option<string>)
      ensures selected == InitialSelection(param)
      ensures Valid()
    {
      selected := InitialSelection(param);
      new;
      ShadowedEntryNeverFound(Studies, 0, 2, param);
    }

    /**
     * The effect run when the parameter changes: a truthy parameter that names an entry selects
     * that entry; anything else keeps the current selection.
     */
    method OnStudyParamChange(param: Option<string>)
      requires Valid()
      modifies this
      ensures Valid()
      ensures param.Some? && param.value != "" && FindById(Studies, param).Some? ==>
                selected == Studies[FindById(Studies, param).value]
      ensures !(param.Some? && param.value != "" && FindById(Studies, param).Some?) ==>
                selected == old(selected)
    {
      if param.Some? && param.value != "" {
        var found := FindById(Studies, param);
        if found.Some? {
          ShadowedEntryNeverFound(Studies, 0, 2, param);
          selected := Studies[found.value];
        }
      }
    }
  }
}
