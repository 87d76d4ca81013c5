/** The link rule of a project card on the home page: which of "View Project"
    (to the case study or to the external site), "Live App" and "Coming Soon"
    a card shows, decided by its `caseStudyLink` and `link` props alone. */
module ProjectCard {

  /** A prop that may be left out (`undefined`) or given a string. */
  datatype Option<T> = None | Some(value: T)

  /** JavaScript truthiness of a string prop: it must be given and not be "". */
  predicate Present(p: Option<string>)
  {
    p.Some? && p.value != ""
  }

  /** The link elements a card can render. */
  datatype CardLink =
    | ViewCaseStudy(href: string)  // "View Project", an in-site link to the case study
    | ViewExternal(href: string)   // "View Project", opening `link` in a new tab
    | LiveApp(href: string)        // "Live App", opening `link` in a new tab
    | ComingSoon                   // the "Coming Soon" note

  predicate IsViewProject(c: CardLink)
  {
    c.ViewCaseStudy? || c.ViewExternal?
  }

  /** The card shows a "Live App" link. */
  predicate ShowsLiveApp(r: seq<CardLink>)
  {
    exists k :: 0 <= k < |r| && r[k].LiveApp?
  }

  /** The card shows the "Coming Soon" note. */
  predicate ShowsComingSoon(r: seq<CardLink>)
  {
    exists k :: 0 <= k < |r| && r[k].ComingSoon?
  }

  /** The links of a card, in the order they appear on the page. */
  function CardLinks(caseStudyLink: Option<string>, link: Option<string>): (r: seq<CardLink>)
    // Every card shows the primary link or the note, and at most one extra.
    ensures 1 <= |r| <= 2
    // The primary "View Project" link goes to the case study when there is one ...
    ensures Present(caseStudyLink) ==> r[0] == ViewCaseStudy(caseStudyLink.value)
    // ... and otherwise to the external link when there is one.
    ensures !Present(caseStudyLink) && Present(link) ==> r == [ViewExternal(link.value)]
    // "Live App" appears exactly when both links are present, and it goes to `link`.
    ensures ShowsLiveApp(r) <==> Present(caseStudyLink) && Present(link)
    ensures forall k :: 0 <= k < |r| && r[k].LiveApp? ==> Present(link) && r[k].href == link.value
    // "Coming Soon" appears exactly when neither link is present, and then alone.
    ensures ShowsComingSoon(r) <==> !Present(link) && !Present(caseStudyLink)
    ensures ShowsComingSoon(r) ==> r == [ComingSoon]
    // At most one "View Project" link, and it is always the first element.
    ensures forall k :: 0 < k < |r| ==> !IsViewProject(r[k])
  {
    var primary :=
      if Present(caseStudyLink) then [ViewCaseStudy(caseStudyLink.value)]
      else if Present(link) then [ViewExternal(link.value)]
      else [];
    var liveApp := if Present(caseStudyLink) && Present(link) then [LiveApp(link.value)] else [];
    var comingSoon := if !Present(link) && !Present(caseStudyLink) then [ComingSoon] else [];
    var r := primary + liveApp + comingSoon;
    assert liveApp != [] ==> r[|primary|] == liveApp[0];
    assert comingSoon != [] ==> r[|primary| + |liveApp|] == comingSoon[0];
    r
  }

  /** The four cases of the rule, one per combination of the two props. */
  lemma CardCases(caseStudyLink: Option<string>, link: Option<string>)
    ensures Present(caseStudyLink) && Present(link) ==>
              CardLinks(caseStudyLink, link) == [ViewCaseStudy(caseStudyLink.value), LiveApp(link.value)]
    ensures Present(caseStudyLink) && !Present(link) ==>
              CardLinks(caseStudyLink, link) == [ViewCaseStudy(caseStudyLink.value)]
    ensures !Present(caseStudyLink) && Present(link) ==>
              CardLinks(caseStudyLink, link) == [ViewExternal(link.value)]
    ensures !Present(caseStudyLink) && !Present(link) ==>
              CardLinks(caseStudyLink, link) == [ComingSoon]
  {
  }

  /** An empty string behaves exactly like a missing prop. */
  lemma EmptyIsAbsent(caseStudyLink: Option<string>, link: Option<string>)
    ensures CardLinks(Some(""), link) == CardLinks(None, link)
    ensures CardLinks(caseStudyLink, Some("")) == CardLinks(caseStudyLink, None)
  {
  }
}
