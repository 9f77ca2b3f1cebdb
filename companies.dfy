/** The companies page: the list of companies, the search box and filter
    selects that narrow it, and the add/edit handlers that replace the list. */
module Companies {
  import opened Wrappers
  import opened Seqs
  import opened Strings

  /** A JavaScript `Date`, as milliseconds since the epoch. */
  type Date = int

  /** A point of contact at a company. */
  datatype Poc = Poc(id: string, name: string, email: string, designation: string,
                     isPrimary: bool, companyId: string)

  /** A job posting; only its identity is modelled. */
  datatype Job = Job(id: string)

  /** A company record. `companyType` is the source's `type` field and holds
      one of 'dream', 'mass_recruiter', 'core' or 'startup'; `tier` one of
      'tier1', 'tier2' or 'tier3'. */
  datatype Company = Company(
    id: string,
    name: string,
    logo: Option<string>,
    website: string,
    industry: string,
    companyType: string,
    tier: string,
    lastContactDate: Option<Date>,
    isActive: bool,
    createdAt: Date,
    pocs: seq<Poc>,
    jobs: seq<Job>)

  /** The filter criteria. `None` is an absent key; a select sets its key to
      the chosen option's value, which is '' for the empty option. */
  datatype Filters = Filters(
    companyType: Option<string>,
    tier: Option<string>,
    industry: Option<string>,
    isActive: Option<bool>)

  /** The criteria object `{}`. */
  const NoFilters: Filters := Filters(None, None, None, None)

  /** `Object.keys(filters).length > 0`: some key is present, whatever its value. */
  predicate HasAnyKey(f: Filters) {
    f.companyType.Some? || f.tier.Some? || f.industry.Some? || f.isActive.Some?
  }

  /** JavaScript truthiness of an optional string: present and non-empty. */
  predicate Truthy(v: Option<string>) {
    v.Some? && v.value != ""
  }

  /** The two sample companies the page starts with. */
  function MockCompanies(): seq<Company> {
    [ Company("1", "Microsoft", Some("/logos/microsoft.png"), "https://microsoft.com",
              "Technology", "dream", "tier1", Some(1731196800000), true, 1705276800000,
              [Poc("1", "John Smith", "john.smith@microsoft.com", "Senior Recruiter", true, "1")],
              []),
      Company("2", "TCS", None, "https://tcs.com",
              "IT Services", "mass_recruiter", "tier2", Some(1730764800000), true, 1705708800000,
              [Poc("2", "Priya Sharma", "priya.sharma@tcs.com", "HR Manager", true, "2")],
              []) ]
  }

  // ---------------------------------------------------------------------------
  // The filter engine

  /** The search test: the lower-cased term occurs in the lower-cased name or
      in the lower-cased industry. */
  predicate MatchesSearch(c: Company, term: string) {
    Includes(Lower(c.name), Lower(term)) || Includes(Lower(c.industry), Lower(term))
  }

  /** The predicates the pipeline's stages hand to `filter`. */
  function SearchMatcher(term: string): Company -> bool { (c: Company) => MatchesSearch(c, term) }
  function TypeMatcher(v: string): Company -> bool { (c: Company) => c.companyType == v }
  function TierMatcher(v: string): Company -> bool { (c: Company) => c.tier == v }
  function IndustryMatcher(v: string): Company -> bool { (c: Company) => c.industry == v }
  function ActiveMatcher(b: bool): Company -> bool { (c: Company) => c.isActive == b }

  /** The filtered list, computed stage by stage as the page computes it: each
      stage runs only when its guard holds; `isActive` is tested against
      `undefined`, so a present `false` filters too. */
  function FilterCompanies(cs: seq<Company>, term: string, f: Filters): seq<Company> {
    var bySearch := if term != "" then Filter(cs, SearchMatcher(term)) else cs;
    var byType := if Truthy(f.companyType) then Filter(bySearch, TypeMatcher(f.companyType.value)) else bySearch;
    var byTier := if Truthy(f.tier) then Filter(byType, TierMatcher(f.tier.value)) else byType;
    var byIndustry := if Truthy(f.industry) then Filter(byTier, IndustryMatcher(f.industry.value)) else byTier;
    if f.isActive.Some? then Filter(byIndustry, ActiveMatcher(f.isActive.value)) else byIndustry
  }

  /** Each stage's test on one company; a stage that does not run passes all. */
  predicate PassesSearch(c: Company, term: string) { term != "" ==> MatchesSearch(c, term) }
  predicate PassesType(c: Company, f: Filters) { Truthy(f.companyType) ==> c.companyType == f.companyType.value }
  predicate PassesTier(c: Company, f: Filters) { Truthy(f.tier) ==> c.tier == f.tier.value }
  predicate PassesIndustry(c: Company, f: Filters) { Truthy(f.industry) ==> c.industry == f.industry.value }
  predicate PassesActive(c: Company, f: Filters) { f.isActive.Some? ==> c.isActive == f.isActive.value }

  /** Whether one company survives every stage: the conjunction of the stages. */
  predicate Retained(c: Company, term: string, f: Filters) {
    PassesSearch(c, term) && PassesType(c, f) && PassesTier(c, f) && PassesIndustry(c, f) && PassesActive(c, f)
  }

  /** The conjunctions of the first stages of the pipeline. */
  function UpToSearch(term: string): Company -> bool {
    (c: Company) => PassesSearch(c, term)
  }
  function UpToType(term: string, f: Filters): Company -> bool {
    (c: Company) => PassesSearch(c, term) && PassesType(c, f)
  }
  function UpToTier(term: string, f: Filters): Company -> bool {
    (c: Company) => PassesSearch(c, term) && PassesType(c, f) && PassesTier(c, f)
  }
  function UpToIndustry(term: string, f: Filters): Company -> bool {
    (c: Company) => PassesSearch(c, term) && PassesType(c, f) && PassesTier(c, f) && PassesIndustry(c, f)
  }
  function RetainedMatcher(term: string, f: Filters): Company -> bool { (c: Company) => Retained(c, term, f) }

  /** The staged pipeline is a single stable filter by the conjunction `Retained`. */
  lemma FilterCompaniesIsConjunction(cs: seq<Company>, term: string, f: Filters)
    ensures FilterCompanies(cs, term, f) == Filter(cs, RetainedMatcher(term, f))
  {
    var bySearch := if term != "" then Filter(cs, SearchMatcher(term)) else cs;
    var byType := if Truthy(f.companyType) then Filter(bySearch, TypeMatcher(f.companyType.value)) else bySearch;
    var byTier := if Truthy(f.tier) then Filter(byType, TierMatcher(f.tier.value)) else byType;
    var byIndustry := if Truthy(f.industry) then Filter(byTier, IndustryMatcher(f.industry.value)) else byTier;
    FilterKeepsAll(cs, (c: Company) => true);
    FilterStage(cs, cs, (c: Company) => true, term != "", SearchMatcher(term), UpToSearch(term));
    FilterStage(cs, bySearch, UpToSearch(term), Truthy(f.companyType),
                TypeMatcher(f.companyType.GetOr("")), UpToType(term, f));
    FilterStage(cs, byType, UpToType(term, f), Truthy(f.tier),
                TierMatcher(f.tier.GetOr("")), UpToTier(term, f));
    FilterStage(cs, byTier, UpToTier(term, f), Truthy(f.industry),
                IndustryMatcher(f.industry.GetOr("")), UpToIndustry(term, f));
    FilterStage(cs, byIndustry, UpToIndustry(term, f), f.isActive.Some?,
                ActiveMatcher(f.isActive.GetOr(false)), RetainedMatcher(term, f));
  }

  /** The result holds exactly the companies that pass every active criterion,
      in their original order, and no more of them than the input. */
  lemma FilterCompaniesMembers(cs: seq<Company>, term: string, f: Filters)
    ensures forall c :: c in FilterCompanies(cs, term, f) <==> c in cs && Retained(c, term, f)
    ensures IsSubsequence(FilterCompanies(cs, term, f), cs)
    ensures |FilterCompanies(cs, term, f)| <= |cs|
  {
    FilterCompaniesIsConjunction(cs, term, f);
    FilterIsSubsequence(cs, RetainedMatcher(term, f));
  }

  /** With an empty search term and criteria that impose nothing (in particular
      `{}`), the filtered list is the whole list, in the same order. */
  lemma FilterCompaniesIdentity(cs: seq<Company>, f: Filters)
    requires !Truthy(f.companyType) && !Truthy(f.tier) && !Truthy(f.industry) && f.isActive.None?
    ensures FilterCompanies(cs, "", f) == cs
  {
  }

  /** The lower-cased term occurs, at some index, in the lower-cased name or
      in the lower-cased industry. */
  ghost predicate SearchHit(c: Company, term: string) {
    (exists i: nat :: OccursAt(Lower(c.name), Lower(term), i)) ||
    (exists i: nat :: OccursAt(Lower(c.industry), Lower(term), i))
  }

  /** The search test is substring containment in the name or the industry. */
  lemma MatchesSearchIffHit(c: Company, term: string)
    ensures MatchesSearch(c, term) <==> SearchHit(c, term)
  {
    IncludesIffOccurs(Lower(c.name), Lower(term));
    IncludesIffOccurs(Lower(c.industry), Lower(term));
  }

  /** A company whose lower-cased name and industry lack the term's first
      (lower-cased) character cannot match it. */
  lemma MissingFirstCharMeansNoMatch(c: Company, term: string)
    requires term != ""
    requires LowerChar(term[0]) !in Lower(c.name) && LowerChar(term[0]) !in Lower(c.industry)
    ensures !MatchesSearch(c, term)
  {
    IncludesNeedsFirstChar(Lower(c.name), Lower(term));
    IncludesNeedsFirstChar(Lower(c.industry), Lower(term));
  }

  /** A search keeps exactly the companies (among those the criteria keep)
      whose lower-cased name or industry contains the lower-cased term; the
      empty term occurs everywhere, so it keeps them all. */
  lemma SearchExact(cs: seq<Company>, term: string, f: Filters)
    ensures forall c :: c in FilterCompanies(cs, term, f) <==>
      c in FilterCompanies(cs, "", f) && SearchHit(c, term)
  {
    FilterCompaniesMembers(cs, term, f);
    FilterCompaniesMembers(cs, "", f);
    forall c | c in cs
      ensures Retained(c, term, f) <==> Retained(c, "", f) && SearchHit(c, term)
    {
      MatchesSearchIffHit(c, term);
    }
  }

  /** The search ignores the case of the term. */
  lemma SearchIgnoresCase(cs: seq<Company>, term: string, f: Filters)
    ensures FilterCompanies(cs, term, f) == FilterCompanies(cs, Lower(term), f)
  {
    LowerIdempotent(term);
    FilterCompaniesIsConjunction(cs, term, f);
    FilterCompaniesIsConjunction(cs, Lower(term), f);
    FilterCongruent(cs, RetainedMatcher(term, f), RetainedMatcher(Lower(term), f));
  }

  /** A non-empty `type` value keeps exactly the companies of that type among
      those kept without it; an empty one imposes nothing. */
  lemma TypeFilterExact(cs: seq<Company>, term: string, f: Filters, v: string)
    ensures v != "" ==> forall c :: c in FilterCompanies(cs, term, f.(companyType := Some(v))) <==>
      c in FilterCompanies(cs, term, f.(companyType := None)) && c.companyType == v
    ensures FilterCompanies(cs, term, f.(companyType := Some(""))) == FilterCompanies(cs, term, f.(companyType := None))
  {
  }

  /** A non-empty `tier` value keeps exactly the companies of that tier among
      those kept without it; an empty one imposes nothing. */
  lemma TierFilterExact(cs: seq<Company>, term: string, f: Filters, v: string)
    ensures v != "" ==> forall c :: c in FilterCompanies(cs, term, f.(tier := Some(v))) <==>
      c in FilterCompanies(cs, term, f.(tier := None)) && c.tier == v
    ensures FilterCompanies(cs, term, f.(tier := Some(""))) == FilterCompanies(cs, term, f.(tier := None))
  {
  }

  /** A non-empty `industry` value keeps exactly the companies of that industry
      among those kept without it; an empty one imposes nothing. */
  lemma IndustryFilterExact(cs: seq<Company>, term: string, f: Filters, v: string)
    ensures v != "" ==> forall c :: c in FilterCompanies(cs, term, f.(industry := Some(v))) <==>
      c in FilterCompanies(cs, term, f.(industry := None)) && c.industry == v
    ensures FilterCompanies(cs, term, f.(industry := Some(""))) == FilterCompanies(cs, term, f.(industry := None))
  {
  }

  /** A present `isActive`, `false` included, keeps exactly the companies with
      that status among those kept without it. */
  lemma ActiveFilterExact(cs: seq<Company>, term: string, f: Filters, b: bool)
    ensures forall c :: c in FilterCompanies(cs, term, f.(isActive := Some(b))) <==>
      c in FilterCompanies(cs, term, f.(isActive := None)) && c.isActive == b
  {
  }

  /** `f` and `g` set no key in common. */
  predicate DisjointKeys(f: Filters, g: Filters) {
    && !(f.companyType.Some? && g.companyType.Some?)
    && !(f.tier.Some? && g.tier.Some?)
    && !(f.industry.Some? && g.industry.Some?)
    && !(f.isActive.Some? && g.isActive.Some?)
  }

  /** The criteria object with the keys of both `f` and `g`. */
  function Combine(f: Filters, g: Filters): Filters {
    Filters(if f.companyType.Some? then f.companyType else g.companyType,
            if f.tier.Some? then f.tier else g.tier,
            if f.industry.Some? then f.industry else g.industry,
            if f.isActive.Some? then f.isActive else g.isActive)
  }

  /** Criteria combine conjunctively: filtering by the union of two disjoint
      criteria objects is filtering by one and then by the other, which is the
      order-preserving intersection of the two results. */
  lemma CriteriaConjunctive(cs: seq<Company>, f: Filters, g: Filters)
    requires DisjointKeys(f, g)
    ensures FilterCompanies(cs, "", Combine(f, g)) == FilterCompanies(FilterCompanies(cs, "", f), "", g)
    ensures forall c :: c in FilterCompanies(cs, "", Combine(f, g)) <==>
      c in FilterCompanies(cs, "", f) && c in FilterCompanies(cs, "", g)
  {
    FilterCompaniesIsConjunction(cs, "", Combine(f, g));
    FilterCompaniesIsConjunction(cs, "", f);
    FilterCompaniesIsConjunction(FilterCompanies(cs, "", f), "", g);
    FilterFuse(cs, RetainedMatcher("", f), RetainedMatcher("", g), RetainedMatcher("", Combine(f, g)));
    FilterCompaniesMembers(cs, "", g);
  }

  /** Appending a company to the list appends it to the filtered list exactly
      when it passes the filters; the earlier results are kept as they were. */
  lemma FilterAfterAppend(cs: seq<Company>, c: Company, term: string, f: Filters)
    ensures FilterCompanies(cs + [c], term, f) ==
      FilterCompanies(cs, term, f) + (if Retained(c, term, f) then [c] else [])
  {
    FilterCompaniesIsConjunction(cs + [c], term, f);
    FilterCompaniesIsConjunction(cs, term, f);
    FilterConcat(cs, [c], RetainedMatcher(term, f));
    assert Filter([c], RetainedMatcher(term, f)) == if Retained(c, term, f) then [c] else [];
  }

  // ---------------------------------------------------------------------------
  // The empty-state message

  datatype EmptyMessage = TryAdjusting | GetStarted

  /** The text of each message. */
  function MessageText(m: EmptyMessage): string {
    match m
    case TryAdjusting => "Try adjusting your search or filters"
    case GetStarted => "Get started by adding your first company"
  }

  /** The message under "No companies found", shown only when the filtered list
      is empty. A present key counts even when its value is ''. */
  function EmptyState(filtered: seq<Company>, term: string, f: Filters): (r: Option<EmptyMessage>)
    ensures r.Some? <==> filtered == []
    ensures r == Some(TryAdjusting) <==> filtered == [] && (term != "" || HasAnyKey(f))
    ensures r == Some(GetStarted) <==> filtered == [] && term == "" && !HasAnyKey(f)
  {
    if |filtered| != 0 then None
    else if term != "" || HasAnyKey(f) then Some(TryAdjusting)
    else Some(GetStarted)
  }

  /** The text under "No companies found", if the card is shown. */
  function EmptyStateText(filtered: seq<Company>, term: string, f: Filters): (r: Option<string>)
    ensures r.None? <==> filtered != []
    ensures r == Some("Try adjusting your search or filters") <==>
      filtered == [] && (term != "" || HasAnyKey(f))
    ensures r == Some("Get started by adding your first company") <==>
      filtered == [] && term == "" && !HasAnyKey(f)
  {
    match EmptyState(filtered, term, f)
    case None => None
    case Some(m) => Some(MessageText(m))
  }

  /** "Get started" is shown only when there are no companies at all. */
  lemma GetStartedOnlyWhenNoCompanies(cs: seq<Company>, term: string, f: Filters)
    requires EmptyState(FilterCompanies(cs, term, f), term, f) == Some(GetStarted)
    ensures cs == []
  {
  }

  /** A search that matches nothing shows "Try adjusting". */
  lemma NoMatchShowsTryAdjusting(cs: seq<Company>, term: string, f: Filters)
    requires term != "" && forall c :: c in cs ==> !MatchesSearch(c, term)
    ensures EmptyState(FilterCompanies(cs, term, f), term, f) == Some(TryAdjusting)
  {
    FilterCompaniesIsConjunction(cs, term, f);
    FilterKeepsNone(cs, RetainedMatcher(term, f));
  }

  // ---------------------------------------------------------------------------
  // Adding and editing

  /** The loosely typed form payload: each field present or absent. */
  datatype CompanyPatch = CompanyPatch(
    id: Option<string>,
    name: Option<string>,
    logo: Option<Option<string>>,
    website: Option<string>,
    industry: Option<string>,
    companyType: Option<string>,
    tier: Option<string>,
    lastContactDate: Option<Option<Date>>,
    isActive: Option<bool>,
    createdAt: Option<Date>,
    pocs: Option<seq<Poc>>,
    jobs: Option<seq<Job>>)
  {
    /** The payload supplies every field a `Company` requires. */
    predicate Complete() {
      name.Some? && website.Some? && industry.Some? && companyType.Some? && tier.Some?
    }
  }

  const EmptyPatch: CompanyPatch :=
    CompanyPatch(None, None, None, None, None, None, None, None, None, None, None, None)

  /** `{ ...c, ...p }`: every field present in `p` replaces the field of `c`. */
  function MergePatch(c: Company, p: CompanyPatch): Company {
    Company(p.id.GetOr(c.id), p.name.GetOr(c.name), p.logo.GetOr(c.logo),
            p.website.GetOr(c.website), p.industry.GetOr(c.industry),
            p.companyType.GetOr(c.companyType), p.tier.GetOr(c.tier),
            p.lastContactDate.GetOr(c.lastContactDate), p.isActive.GetOr(c.isActive),
            p.createdAt.GetOr(c.createdAt), p.pocs.GetOr(c.pocs), p.jobs.GetOr(c.jobs))
  }

  /** Merging the empty payload changes nothing, and merging the same payload
      twice is merging it once. */
  lemma MergePatchLaws(c: Company, p: CompanyPatch)
    ensures MergePatch(c, EmptyPatch) == c
    ensures MergePatch(MergePatch(c, p), p) == MergePatch(c, p)
  {
  }

  /** The record `handleAddCompany` builds: an id from the clock (a payload id
      wins, since the payload is spread after it), the payload's fields, then
      `isActive`, `createdAt`, `pocs` and `jobs` forced whatever the payload says. */
  function NewCompany(p: CompanyPatch, clockId: string, now: Date): (r: Company)
    requires p.Complete()
    ensures r.isActive && r.createdAt == now && r.pocs == [] && r.jobs == []
    ensures r.id == p.id.GetOr(clockId)
    ensures r.name == p.name.value && r.industry == p.industry.value
    ensures r.companyType == p.companyType.value && r.tier == p.tier.value
    ensures r.website == p.website.value && r.logo == p.logo.GetOr(None)
    ensures r.lastContactDate == p.lastContactDate.GetOr(None)
  {
    Company(p.id.GetOr(clockId), p.name.value, p.logo.GetOr(None), p.website.value,
            p.industry.value, p.companyType.value, p.tier.value,
            p.lastContactDate.GetOr(None), true, now, [], [])
  }

  /** `companies.map(...)`: each company with the given id merged with the
      payload, every other company as it was. */
  function UpdateCompanies(cs: seq<Company>, id: string, p: CompanyPatch): (r: seq<Company>)
    ensures |r| == |cs|
    ensures forall i :: 0 <= i < |cs| && cs[i].id != id ==> r[i] == cs[i]
    ensures forall i :: 0 <= i < |cs| && cs[i].id == id ==> r[i] == MergePatch(cs[i], p)
  {
    if cs == [] then []
    else [if cs[0].id == id then MergePatch(cs[0], p) else cs[0]] + UpdateCompanies(cs[1..], id, p)
  }

  /** Editing an id that no company has leaves the list as it was. */
  lemma UpdateMissingIdIsIdentity(cs: seq<Company>, id: string, p: CompanyPatch)
    requires forall c :: c in cs ==> c.id != id
    ensures UpdateCompanies(cs, id, p) == cs
  {
  }

  /** Re-submitting the same edit changes nothing more, as long as the payload
      does not move the company to another id. */
  lemma UpdateIdempotent(cs: seq<Company>, id: string, p: CompanyPatch)
    requires p.id.None? || p.id == Some(id)
    ensures UpdateCompanies(UpdateCompanies(cs, id, p), id, p) == UpdateCompanies(cs, id, p)
  {
  }

  /** An edit does not touch the companies with other ids: with the edited ones
      removed, the list is the same before and after. */
  lemma {:induction false} UpdateKeepsOthers(cs: seq<Company>, id: string, p: CompanyPatch)
    requires p.id.None? || p.id == Some(id)
    ensures Filter(UpdateCompanies(cs, id, p), OtherId(id)) == Filter(cs, OtherId(id))
  {
    if cs != [] {
      UpdateKeepsOthers(cs[1..], id, p);
      assert UpdateCompanies(cs, id, p)[1..] == UpdateCompanies(cs[1..], id, p);
    }
  }

  function OtherId(id: string): Company -> bool { (c: Company) => c.id != id }

  // ---------------------------------------------------------------------------
  // The page state

  /** The page component's state. `Valid` says the filter effect has run since
      the last change of `companies`, `searchTerm` or `filters`. */
  class CompaniesPage {
    var companies: seq<Company>
    var filteredCompanies: seq<Company>
    var searchTerm: string
    var filters: Filters
    var selectedCompany: Option<Company>
    var showCompanyForm: bool

    ghost predicate Valid()
      reads this
    {
      filteredCompanies == FilterCompanies(companies, searchTerm, filters)
    }

    /** The initial state: the sample companies, all shown, no search, `{}`. */
    constructor ()
      ensures Valid()
      ensures companies == MockCompanies() && filteredCompanies == companies
      ensures searchTerm == "" && filters == NoFilters
      ensures selectedCompany == None && !showCompanyForm
    {
      companies := MockCompanies();
      filteredCompanies := MockCompanies();
      searchTerm := "";
      filters := NoFilters;
      selectedCompany := None;
      showCompanyForm := false;
    }

    /** `applyFilters`: narrow `companies` stage by stage and store the result. */
    method ApplyFilters()
      modifies this`filteredCompanies
      ensures Valid()
      ensures filteredCompanies == FilterCompanies(companies, searchTerm, filters)
    {
      var filtered := companies;
      if searchTerm != "" {
        filtered := Filter(filtered, SearchMatcher(searchTerm));
      }
      if Truthy(filters.companyType) {
        filtered := Filter(filtered, TypeMatcher(filters.companyType.value));
      }
      if Truthy(filters.tier) {
        filtered := Filter(filtered, TierMatcher(filters.tier.value));
      }
      if Truthy(filters.industry) {
        filtered := Filter(filtered, IndustryMatcher(filters.industry.value));
      }
      if filters.isActive.Some? {
        filtered := Filter(filtered, ActiveMatcher(filters.isActive.value));
      }
      filteredCompanies := filtered;
    }

    /** The search box's `onChange`, followed by the filter effect. */
    method SetSearchTerm(term: string)
      modifies this
      ensures Valid()
      ensures searchTerm == term
      ensures companies == old(companies) && filters == old(filters)
      ensures selectedCompany == old(selectedCompany) && showCompanyForm == old(showCompanyForm)
    {
      searchTerm := term;
      ApplyFilters();
    }

    /** The Type select: `{ ...filters, type: value }`, then the effect. */
    method SetTypeFilter(value: string)
      modifies this
      ensures Valid()
      ensures filters == old(filters).(companyType := Some(value))
      ensures companies == old(companies) && searchTerm == old(searchTerm)
      ensures selectedCompany == old(selectedCompany) && showCompanyForm == old(showCompanyForm)
    {
      filters := filters.(companyType := Some(value));
      ApplyFilters();
    }

    /** The Tier select: `{ ...filters, tier: value }`, then the effect. */
    method SetTierFilter(value: string)
      modifies this
      ensures Valid()
      ensures filters == old(filters).(tier := Some(value))
      ensures companies == old(companies) && searchTerm == old(searchTerm)
      ensures selectedCompany == old(selectedCompany) && showCompanyForm == old(showCompanyForm)
    {
      filters := filters.(tier := Some(value));
      ApplyFilters();
    }

    /** The Status select: `isActive` becomes `value == 'true'`, so the empty
        option sets it to `false` rather than removing it. */
    method SetStatusFilter(value: string)
      modifies this
      ensures Valid()
      ensures filters == old(filters).(isActive := Some(value == "true"))
      ensures companies == old(companies) && searchTerm == old(searchTerm)
      ensures selectedCompany == old(selectedCompany) && showCompanyForm == old(showCompanyForm)
      ensures forall c :: c in filteredCompanies ==> c.isActive == (value == "true")
    {
      filters := filters.(isActive := Some(value == "true"));
      ApplyFilters();
      FilterCompaniesMembers(companies, searchTerm, filters);
    }

    /** "Clear Filters": back to `{}`; the search term is kept. */
    method ClearFilters()
      modifies this
      ensures Valid()
      ensures filters == NoFilters
      ensures companies == old(companies) && searchTerm == old(searchTerm)
      ensures selectedCompany == old(selectedCompany) && showCompanyForm == old(showCompanyForm)
      ensures searchTerm == "" ==> filteredCompanies == companies
    {
      filters := NoFilters;
      ApplyFilters();
      FilterCompaniesIdentity(companies, filters);
    }

    /** The "Add Company" action: no selection, form open. */
    method OpenAddForm()
      modifies this`selectedCompany, this`showCompanyForm
      ensures selectedCompany == None && showCompanyForm
    {
      selectedCompany := None;
      showCompanyForm := true;
    }

    /** A card's Edit button: select that company, form open. */
    method SelectForEdit(c: Company)
      modifies this`selectedCompany, this`showCompanyForm
      ensures selectedCompany == Some(c) && showCompanyForm
    {
      selectedCompany := Some(c);
      showCompanyForm := true;
    }

    /** The empty-state card's "Add Company" button: it only opens the form,
        keeping whatever selection there is. */
    method OpenFormFromEmptyState()
      modifies this`showCompanyForm
      ensures showCompanyForm
    {
      showCompanyForm := true;
    }

    /** Closing or cancelling the form: form closed, no selection. */
    method CloseForm()
      modifies this`selectedCompany, this`showCompanyForm
      ensures selectedCompany == None && !showCompanyForm
    {
      showCompanyForm := false;
      selectedCompany := None;
    }

    /** `handleAddCompany`: append the new record, close the form, then run the
        effect. The clock's id and date are parameters. */
    method AddCompany(p: CompanyPatch, clockId: string, now: Date)
      requires Valid()
      requires p.Complete()
      modifies this
      ensures Valid()
      ensures companies == old(companies) + [NewCompany(p, clockId, now)]
      ensures filteredCompanies == old(filteredCompanies) +
        (if Retained(NewCompany(p, clockId, now), searchTerm, filters) then [NewCompany(p, clockId, now)] else [])
      ensures !showCompanyForm
      ensures searchTerm == old(searchTerm) && filters == old(filters)
      ensures selectedCompany == old(selectedCompany)
    {
      var added := NewCompany(p, clockId, now);
      FilterAfterAppend(companies, added, searchTerm, filters);
      companies := companies + [added];
      showCompanyForm := false;
      ApplyFilters();
    }

    /** `handleEditCompany`: without a selection nothing happens; otherwise
        every company with the selected id is merged with the payload, the form
        closes, the selection clears, and the effect runs. */
    method EditCompany(p: CompanyPatch)
      requires Valid()
      modifies this
      ensures Valid()
      ensures old(selectedCompany).None? ==> unchanged(this)
      ensures old(selectedCompany).Some? ==>
        && companies == UpdateCompanies(old(companies), old(selectedCompany).value.id, p)
        && selectedCompany == None && !showCompanyForm
        && searchTerm == old(searchTerm) && filters == old(filters)
    {
      if selectedCompany.None? {
        return;
      }
      companies := UpdateCompanies(companies, selectedCompany.value.id, p);
      showCompanyForm := false;
      selectedCompany := None;
      ApplyFilters();
    }

    /** The empty-state message for the current state. */
    function CurrentEmptyState(): (r: Option<EmptyMessage>)
      reads this
      requires Valid()
      ensures r == Some(GetStarted) ==> companies == []
    {
      var r := EmptyState(filteredCompanies, searchTerm, filters);
      if r == Some(GetStarted) then
        GetStartedOnlyWhenNoCompanies(companies, searchTerm, filters);
        r
      else r
    }
  }
}
