/** The insurance data service: a fixed table of plans, a search with
    keyword-triggered overrides and an "everything" fallback, lookup by id, and
    the plans whose network includes a hospital. */
module Insurance {
  import opened Wrappers
  import opened Text
  import opened Seqs

  /** Premiums and deductibles in dollars; ratings in tenths (4.3 is 43). */
  datatype Plan = Plan(
    id: string,
    provider: string,
    planName: string,
    kind: string,
    monthlyPremium: nat,
    deductible: nat,
    coverage: seq<string>,
    networkHospitals: seq<string>,
    rating: nat)

  const PremiumCarePlus := Plan("INS001", "HealthFirst Insurance", "Premium Care Plus", "HMO", 450, 1000,
    ["Emergency", "Surgery", "Prescription", "Dental"], ["H001", "H002"], 43)
  const FamilyHealth := Plan("INS002", "MediCare Solutions", "Family Health Plan", "PPO", 650, 500,
    ["Emergency", "Surgery", "Prescription", "Mental Health", "Vision"], ["H001", "H003"], 41)
  const EssentialCoverage := Plan("INS003", "Basic Health Co", "Essential Coverage", "Bronze", 250, 2500,
    ["Emergency", "Basic Surgery"], ["H002"], 38)
  const PlatinumSelect := Plan("INS004", "Elite Medical Insurance", "Platinum Select", "Platinum", 850, 200,
    ["Emergency", "Surgery", "Prescription", "Dental", "Vision", "Mental Health", "Alternative Medicine"],
    ["H001", "H002", "H003"], 47)

  /** `INSURANCE_DATA` */
  const InsuranceData: seq<Plan> := [PremiumCarePlus, FamilyHealth, EssentialCoverage, PlatinumSelect]

  /** Words that switch the search to the cheapest plans. */
  const BudgetWords: seq<string> := ["cheap", "affordable", "budget"]
  /** Words that switch the search to the best-rated plans. */
  const QualityWords: seq<string> := ["premium", "best", "high"]
  /** Plans returned by either override. */
  const OverrideCount: nat := 2

  /** The search condition for an already lowered query: the query occurs in the
      lowered provider, plan name or type, or some lowered coverage item occurs in
      the query. */
  predicate Matches(p: Plan, queryLower: string)
  {
    Contains(Lower(p.provider), queryLower)
    || Contains(Lower(p.planName), queryLower)
    || Contains(Lower(p.kind), queryLower)
    || AnyContained(LowerAll(p.coverage), queryLower)
  }

  function MatchesQuery(queryLower: string): Plan -> bool
  {
    (p: Plan) => Matches(p, queryLower)
  }

  /** Sort key of the budget override: ascending premium. */
  const ByPremium: Plan -> int := (p: Plan) => p.monthlyPremium
  /** Sort key of the quality override: ascending order of the negated rating is
      the descending order Python's `reverse=True` asks for. */
  const ByRatingDescending: Plan -> int := (p: Plan) => -(p.rating as int)

  /** The result of `/search`. */
  function SearchResult(query: string): seq<Plan>
  {
    var q := Lower(query);
    var results :=
      if AnyContained(BudgetWords, q) then SortBy(InsuranceData, ByPremium)[..OverrideCount]
      else if AnyContained(QualityWords, q) then SortBy(InsuranceData, ByRatingDescending)[..OverrideCount]
      else Filter(InsuranceData, MatchesQuery(q));
    if results == [] then InsuranceData else results
  }

  /** `search_insurance`: a loop that appends each match, the overrides that
      replace the list, then the fallback. */
  method SearchInsurance(query: string) returns (results: seq<Plan>)
    ensures results == SearchResult(query)
  {
    var queryLower := Lower(query);
    results := [];
    for k := 0 to |InsuranceData|
      invariant results == Filter(InsuranceData[..k], MatchesQuery(queryLower))
    {
      FilterStep(InsuranceData, k, MatchesQuery(queryLower));
      if Matches(InsuranceData[k], queryLower) {
        results := results + [InsuranceData[k]];
      }
    }
    assert InsuranceData[..|InsuranceData|] == InsuranceData;
    if AnyContained(BudgetWords, queryLower) {
      results := SortBy(InsuranceData, ByPremium)[..OverrideCount];
    } else if AnyContained(QualityWords, queryLower) {
      results := SortBy(InsuranceData, ByRatingDescending)[..OverrideCount];
    }
    if results == [] {
      results := InsuranceData;
    }
  }

  /** Without an override word the search returns exactly the matching plans in
      table order, or the whole table when none matches. */
  lemma PlainSearch(query: string)
    requires !AnyContained(BudgetWords, Lower(query)) && !AnyContained(QualityWords, Lower(query))
    ensures IsSubseq(SearchResult(query), InsuranceData)
    ensures (exists p :: p in InsuranceData && Matches(p, Lower(query))) ==>
      forall p :: p in SearchResult(query) <==> p in InsuranceData && Matches(p, Lower(query))
    ensures (forall p :: p in InsuranceData ==> !Matches(p, Lower(query))) ==> SearchResult(query) == InsuranceData
  {
    var m := MatchesQuery(Lower(query));
    FilterSubseq(InsuranceData, m);
    SubseqOfItself(InsuranceData);
    forall p
      ensures p in Filter(InsuranceData, m) <==> p in InsuranceData && Matches(p, Lower(query))
    {
      FilterMembers(InsuranceData, m, p);
    }
    if Filter(InsuranceData, m) != [] {
      var x := Filter(InsuranceData, m)[0];
      assert x in InsuranceData && Matches(x, Lower(query));
    }
  }

  /** Every plan occurs once in the table, so two plans drawn from it without
      repetition are different plans. */
  lemma TwoDistinct(r: seq<Plan>)
    requires |r| == 2 && multiset(r) <= multiset(InsuranceData)
    ensures r[0] != r[1]
  {
    assert r == [r[0], r[1]];
    assert multiset(r)[r[0]] == if r[0] == r[1] then 2 else 1;
    assert multiset(r)[r[0]] <= multiset(InsuranceData)[r[0]];
  }

  /** With a budget word the result is the two cheapest plans in ascending premium
      order, whatever else matched. */
  lemma BudgetOverride(query: string)
    requires AnyContained(BudgetWords, Lower(query))
    ensures var r := SearchResult(query);
      && |r| == OverrideCount
      && (forall k :: 0 <= k < |r| ==> r[k] in InsuranceData)
      && multiset(r) <= multiset(InsuranceData)
      && r[0] != r[1]
      && r[0].monthlyPremium <= r[1].monthlyPremium
      && forall p :: p in InsuranceData && p !in r ==> r[1].monthlyPremium <= p.monthlyPremium
  {
    SmallestByKey(InsuranceData, ByPremium, OverrideCount);
    TwoDistinct(SortBy(InsuranceData, ByPremium)[..OverrideCount]);
  }

  /** Otherwise, with a quality word the result is the two best-rated plans in
      descending rating order; budget words take precedence. */
  lemma QualityOverride(query: string)
    requires !AnyContained(BudgetWords, Lower(query)) && AnyContained(QualityWords, Lower(query))
    ensures var r := SearchResult(query);
      && |r| == OverrideCount
      && (forall k :: 0 <= k < |r| ==> r[k] in InsuranceData)
      && multiset(r) <= multiset(InsuranceData)
      && r[0] != r[1]
      && r[0].rating >= r[1].rating
      && forall p :: p in InsuranceData && p !in r ==> p.rating <= r[1].rating
  {
    SmallestByKey(InsuranceData, ByRatingDescending, OverrideCount);
    TwoDistinct(SortBy(InsuranceData, ByRatingDescending)[..OverrideCount]);
  }

  /** The search never comes back empty and only returns plans of the table. */
  lemma SearchShape(query: string)
    ensures |SearchResult(query)| > 0
    ensures forall p :: p in SearchResult(query) ==> p in InsuranceData
  {
    var q := Lower(query);
    if AnyContained(BudgetWords, q) {
      BudgetOverride(query);
    } else if AnyContained(QualityWords, q) {
      QualityOverride(query);
    } else {
      forall p | p in Filter(InsuranceData, MatchesQuery(q))
        ensures p in InsuranceData
      {
        FilterMembers(InsuranceData, MatchesQuery(q), p);
      }
    }
  }

  /** An HTTP error answer: `get_insurance` raises status 404, "Insurance plan not found". */
  datatype LookupError = HttpError(status: int)

  /** The lookup condition of the insurance service's own table. */
  function HasId(id: string): Plan -> bool
  {
    (p: Plan) => p.id == id
  }

  /** `get_insurance`: the first plan with the id, or not-found. */
  function GetInsurance(id: string): (r: Result<Plan, LookupError>)
    ensures r.Ok? ==> r.value in InsuranceData && r.value.id == id
    ensures r.Ok? ==>
      exists k :: 0 <= k < |InsuranceData| && InsuranceData[k] == r.value
                  && forall j :: 0 <= j < k ==> InsuranceData[j].id != id
    ensures r.Err? <==> forall p :: p in InsuranceData ==> p.id != id
    ensures r.Err? ==> r.error.status == 404
  {
    match FirstWhere(InsuranceData, HasId(id))
    case Some(k) => Ok(InsuranceData[k])
    case None => Err(HttpError(404))
  }

  function InNetwork(hospitalId: string): Plan -> bool
  {
    (p: Plan) => hospitalId in p.networkHospitals
  }

  /** `get_compatible_insurance`: exactly the plans whose network lists the
      hospital, in table order; possibly none. */
  function CompatibleInsurance(hospitalId: string): (r: seq<Plan>)
    ensures IsSubseq(r, InsuranceData)
    ensures forall p :: p in r <==> p in InsuranceData && hospitalId in p.networkHospitals
  {
    FilterSubseq(InsuranceData, InNetwork(hospitalId));
    assert forall p :: p in Filter(InsuranceData, InNetwork(hospitalId)) <==> p in InsuranceData && InNetwork(hospitalId)(p) by {
      forall p {
        FilterMembers(InsuranceData, InNetwork(hospitalId), p);
      }
    }
    Filter(InsuranceData, InNetwork(hospitalId))
  }
}
