/**
 * Roster search (src/lib/rosterSearch.ts): providers filtered by a free-text query, a site and
 * a work status, each filter applied to the survivors of the previous one.
 */
module RosterSearch {
  import opened Wrappers
  import opened JsText
  import opened Seqs

  datatype ProviderType = Physician | APC
  datatype WorkStatus = FT | PT | PRN | LOC | IL
  datatype ProviderStatus = Active | Pending | Inactive

  /** The string value of a provider type, which the text query also searches. */
  function ProviderTypeName(t: ProviderType): string {
    match t
    case Physician => "Physician"
    case APC => "APC"
  }

  datatype RosterProvider = RosterProvider(
    id: string,
    name: string,
    preferredName: Option<string>,
    kind: ProviderType,
    serviceLines: seq<string>,
    sites: seq<string>,
    workStatus: WorkStatus,
    email: string,
    phone: string,
    status: ProviderStatus)

  /** The work-status filter: "All", or one status. */
  datatype WorkStatusFilter = AllStatuses | OnlyStatus(status: WorkStatus)

  /** RosterFilters: every field optional. */
  datatype RosterFilters = RosterFilters(query: Option<string>, site: Option<string>,
                                         workStatus: Option<WorkStatusFilter>)

  /** matchesQuery: case-insensitive substring test. */
  function MatchesQuery(str: string, q: string): bool {
    Contains(ToLower(str), ToLower(q))
  }

  /** `strs.some((s) => matchesQuery(s, q))`. */
  predicate SomeMatches(strs: seq<string>, q: string) {
    exists i :: 0 <= i < |strs| && MatchesQuery(strs[i], q)
  }

  /** The seven fields the text query searches, in the order the source tries them. */
  predicate MatchesProvider(p: RosterProvider, q: string) {
    || MatchesQuery(p.name, q)
    || MatchesQuery(p.preferredName.GetOr(""), q)
    || MatchesQuery(p.email, q)
    || MatchesQuery(p.phone, q)
    || SomeMatches(p.sites, q)
    || SomeMatches(p.serviceLines, q)
    || MatchesQuery(ProviderTypeName(p.kind), q)
  }

  /** `(filters.query ?? "").trim()`. */
  function TrimmedQuery(f: RosterFilters): string {
    Trim(f.query.GetOr(""))
  }

  /** The query filter keeps `p`: a blank query keeps everyone. */
  predicate KeepsByQuery(f: RosterFilters, p: RosterProvider) {
    TrimmedQuery(f) == [] || MatchesProvider(p, TrimmedQuery(f))
  }

  /** The site filter keeps `p`: an absent or empty site keeps everyone; otherwise an exact, case-sensitive match. */
  predicate KeepsBySite(f: RosterFilters, p: RosterProvider) {
    f.site.None? || f.site.value == [] || f.site.value in p.sites
  }

  /** The work-status filter keeps `p`: absent or "All" keeps everyone. */
  predicate KeepsByStatus(f: RosterFilters, p: RosterProvider) {
    f.workStatus.None? || f.workStatus.value.AllStatuses? || p.workStatus == f.workStatus.value.status
  }

  /** The conjunction of the three filters. */
  predicate Keeps(f: RosterFilters, p: RosterProvider) {
    KeepsByQuery(f, p) && KeepsBySite(f, p) && KeepsByStatus(f, p)
  }

  /**
   * filterRosterProviders: the query, site and work-status filters in turn, each skipped when
   * its filter is blank. The result is an order-preserving subsequence of the input holding
   * exactly the providers all three filters keep.
   */
  function FilterRosterProviders(providers: seq<RosterProvider>, f: RosterFilters): (r: seq<RosterProvider>)
    ensures IsSubsequence(r, providers)
    ensures forall p :: p in r <==> p in providers && Keeps(f, p)
  {
    var q := TrimmedQuery(f);
    var byQuery := if q != [] then Filter(providers, (p: RosterProvider) => MatchesProvider(p, q)) else providers;
    var bySite := if f.site.Some? && f.site.value != [] then Filter(byQuery, (p: RosterProvider) => f.site.value in p.sites) else byQuery;
    var result :=
      if f.workStatus.Some? && f.workStatus.value.OnlyStatus?
      then Filter(bySite, (p: RosterProvider) => p.workStatus == f.workStatus.value.status)
      else bySite;
    FilterRosterIsConjunction(providers, f);
    FilterIsSubsequence(providers, (p: RosterProvider) => Keeps(f, p));
    forall p ensures p in result <==> p in providers && Keeps(f, p) {
      FilterMembership(providers, (p: RosterProvider) => Keeps(f, p), p);
    }
    result
  }

  /** Each step, skipped or applied, is a filter by that step's keep-predicate. */
  lemma FilterRosterIsConjunction(providers: seq<RosterProvider>, f: RosterFilters)
    ensures
      var q := TrimmedQuery(f);
      var byQuery := if q != [] then Filter(providers, (p: RosterProvider) => MatchesProvider(p, q)) else providers;
      var bySite := if f.site.Some? && f.site.value != [] then Filter(byQuery, (p: RosterProvider) => f.site.value in p.sites) else byQuery;
      var result :=
        if f.workStatus.Some? && f.workStatus.value.OnlyStatus?
        then Filter(bySite, (p: RosterProvider) => p.workStatus == f.workStatus.value.status)
        else bySite;
      result == Filter(providers, (p: RosterProvider) => Keeps(f, p))
  {
    var q := TrimmedQuery(f);
    var kq := (p: RosterProvider) => KeepsByQuery(f, p);
    var ks := (p: RosterProvider) => KeepsBySite(f, p);
    var kw := (p: RosterProvider) => KeepsByStatus(f, p);
    var kqs := (p: RosterProvider) => KeepsByQuery(f, p) && KeepsBySite(f, p);
    var all := (p: RosterProvider) => Keeps(f, p);

    var byQuery := if q != [] then Filter(providers, (p: RosterProvider) => MatchesProvider(p, q)) else providers;
    if q != [] {
      FilterSamePredicate(providers, (p: RosterProvider) => MatchesProvider(p, q), kq);
    } else {
      FilterKeepsAll(providers, kq);
    }
    assert byQuery == Filter(providers, kq);

    var bySite := if f.site.Some? && f.site.value != [] then Filter(byQuery, (p: RosterProvider) => f.site.value in p.sites) else byQuery;
    if f.site.Some? && f.site.value != [] {
      FilterSamePredicate(byQuery, (p: RosterProvider) => f.site.value in p.sites, ks);
    } else {
      FilterKeepsAll(byQuery, ks);
    }
    FilterCompose(providers, kq, ks, kqs);
    assert bySite == Filter(providers, kqs);

    if f.workStatus.Some? && f.workStatus.value.OnlyStatus? {
      FilterSamePredicate(bySite, (p: RosterProvider) => p.workStatus == f.workStatus.value.status, kw);
    } else {
      FilterKeepsAll(bySite, kw);
    }
    FilterCompose(providers, kqs, kw, all);
  }

  /** filterRosterProviders is a single filter by the conjunction of the three predicates. */
  lemma FilterRosterIsSingleFilter(providers: seq<RosterProvider>, f: RosterFilters)
    ensures FilterRosterProviders(providers, f) == Filter(providers, (p: RosterProvider) => Keeps(f, p))
  {
    FilterRosterIsConjunction(providers, f);
  }

  /** Filtering the result again with the same filters changes nothing. */
  lemma FilterRosterIdempotent(providers: seq<RosterProvider>, f: RosterFilters)
    ensures FilterRosterProviders(FilterRosterProviders(providers, f), f) == FilterRosterProviders(providers, f)
  {
    FilterRosterIsSingleFilter(providers, f);
    FilterRosterIsSingleFilter(FilterRosterProviders(providers, f), f);
    FilterIdempotent(providers, (p: RosterProvider) => Keeps(f, p));
  }

  /** An absent, empty or whitespace-only query applies no text filtering. */
  lemma BlankQueryIgnored(providers: seq<RosterProvider>, f: RosterFilters)
    requires AllWhitespace(f.query.GetOr(""))
    ensures FilterRosterProviders(providers, f) == FilterRosterProviders(providers, f.(query := None))
  {
    TrimSpec(f.query.GetOr(""));
    TrimSpec("");
    FilterRosterIsSingleFilter(providers, f);
    FilterRosterIsSingleFilter(providers, f.(query := None));
    FilterSamePredicate(providers, (p: RosterProvider) => Keeps(f, p), (p: RosterProvider) => Keeps(f.(query := None), p));
  }

  /** With a non-blank query, a provider survives iff some searched field contains the query, ignoring case. */
  lemma QueryKeepsExactlyMatches(providers: seq<RosterProvider>, f: RosterFilters, p: RosterProvider)
    requires !AllWhitespace(f.query.GetOr(""))
    requires f.site.None? && f.workStatus.None?
    ensures p in FilterRosterProviders(providers, f) <==> p in providers && MatchesProvider(p, Trim(f.query.value))
  {
    TrimSpec(f.query.GetOr(""));
  }

  /** With a site, every result lists that exact site. */
  lemma SiteFilterExact(providers: seq<RosterProvider>, f: RosterFilters, site: string)
    requires f.site == Some(site) && site != []
    ensures forall p :: p in FilterRosterProviders(providers, f) ==> site in p.sites
  {
  }

  /** With one work status, every result has exactly that status; "All" keeps every status. */
  lemma StatusFilterExact(providers: seq<RosterProvider>, f: RosterFilters)
    ensures f.workStatus.Some? && f.workStatus.value.OnlyStatus? ==>
              forall p :: p in FilterRosterProviders(providers, f) ==> p.workStatus == f.workStatus.value.status
    ensures f.workStatus == Some(AllStatuses) ==>
              FilterRosterProviders(providers, f) == FilterRosterProviders(providers, f.(workStatus := None))
  {
    if f.workStatus == Some(AllStatuses) {
      FilterRosterIsSingleFilter(providers, f);
      FilterRosterIsSingleFilter(providers, f.(workStatus := None));
      FilterSamePredicate(providers, (p: RosterProvider) => Keeps(f, p), (p: RosterProvider) => Keeps(f.(workStatus := None), p));
    }
  }

  /** The query's letter case does not matter. */
  lemma QueryCaseInsensitive(str: string, q: string)
    ensures MatchesQuery(str, ToLower(q)) == MatchesQuery(str, q)
    ensures MatchesQuery(ToLower(str), q) == MatchesQuery(str, q)
  {
    ToLowerIdempotent(q);
    ToLowerIdempotent(str);
  }

  /** A query matches a field exactly when it occurs in the lower-cased field at some index. */
  lemma MatchesQueryIffOccurs(str: string, q: string)
    ensures MatchesQuery(str, q) <==> exists k :: OccursAt(ToLower(str), ToLower(q), k)
  {
    ContainsIffOccurs(ToLower(str), ToLower(q));
  }
}
