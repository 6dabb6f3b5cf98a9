/** The hospital data service: a fixed table, a substring search with an
    "everything" fallback, and lookup by id. */
module Hospitals {
  import opened Wrappers
  import opened Text
  import opened Seqs

  /** Ratings are in tenths (4.5 is 45). */
  datatype Hospital = Hospital(
    id: string,
    name: string,
    specialties: seq<string>,
    location: string,
    rating: nat,
    doctors: nat,
    emergencyServices: bool)

  const CityGeneral := Hospital("H001", "City General Hospital", ["Cardiology", "Neurology", "Emergency"], "Downtown", 45, 150, true)
  const StMarys := Hospital("H002", "St. Mary's Medical Center", ["Oncology", "Pediatrics", "Surgery"], "North Side", 42, 120, true)
  const RegionalClinic := Hospital("H003", "Regional Specialty Clinic", ["Dermatology", "Orthopedics"], "Suburbs", 40, 80, false)

  /** `HOSPITAL_DATA` */
  const HospitalData: seq<Hospital> := [CityGeneral, StMarys, RegionalClinic]

  /** The search condition for an already lowered query: the query occurs in the
      lowered name or location, or some lowered specialty occurs in the query. */
  predicate Matches(h: Hospital, queryLower: string)
  {
    Contains(Lower(h.name), queryLower)
    || AnyContained(LowerAll(h.specialties), queryLower)
    || Contains(Lower(h.location), queryLower)
  }

  function MatchesQuery(queryLower: string): Hospital -> bool
  {
    (h: Hospital) => Matches(h, queryLower)
  }

  /** The result of `/search`: the matching hospitals in table order, or the whole
      table when none matches. */
  function SearchResult(query: string): seq<Hospital>
  {
    var found := Filter(HospitalData, MatchesQuery(Lower(query)));
    if found == [] then HospitalData else found
  }

  /** `search_hospitals`: a loop that appends each match, then the fallback. */
  method SearchHospitals(query: string) returns (results: seq<Hospital>)
    ensures results == SearchResult(query)
  {
    var queryLower := Lower(query);
    results := [];
    for k := 0 to |HospitalData|
      invariant results == Filter(HospitalData[..k], MatchesQuery(queryLower))
    {
      FilterStep(HospitalData, k, MatchesQuery(queryLower));
      if Matches(HospitalData[k], queryLower) {
        results := results + [HospitalData[k]];
      }
    }
    assert HospitalData[..|HospitalData|] == HospitalData;
    if results == [] {
      results := HospitalData;
    }
  }

  /** The search never comes back empty, returns hospitals of the table in table
      order, and returns exactly the matching ones when there are any. */
  lemma SearchShape(query: string)
    ensures |SearchResult(query)| > 0
    ensures IsSubseq(SearchResult(query), HospitalData)
    ensures forall h :: h in SearchResult(query) ==> h in HospitalData
    ensures (exists h :: h in HospitalData && Matches(h, Lower(query))) ==>
      forall h :: h in SearchResult(query) <==> h in HospitalData && Matches(h, Lower(query))
    ensures (forall h :: h in HospitalData ==> !Matches(h, Lower(query))) ==> SearchResult(query) == HospitalData
  {
    var p := MatchesQuery(Lower(query));
    FilterSubseq(HospitalData, p);
    forall h
      ensures h in Filter(HospitalData, p) <==> h in HospitalData && Matches(h, Lower(query))
    {
      FilterMembers(HospitalData, p, h);
    }
    SubseqOfItself(HospitalData);
    if Filter(HospitalData, p) != [] {
      var x := Filter(HospitalData, p)[0];
      assert x in HospitalData && Matches(x, Lower(query));
    }
  }

  /** The empty query matches every hospital, so the search returns the whole table. */
  lemma EmptyQueryMatchesAll()
    ensures SearchResult("") == HospitalData
  {
    assert Lower("") == "";
    forall k | 0 <= k < |HospitalData|
      ensures MatchesQuery("")(HospitalData[k])
    {
      EmptyContained(Lower(HospitalData[k].name));
    }
    FilterAll(HospitalData, MatchesQuery(""));
  }

  /** A query that mentions cardiology and triggers no other hospital returns only
      City General Hospital. */
  lemma CardiologyQuery(query: string)
    requires Contains(Lower(query), "cardiology")
    requires !Matches(StMarys, Lower(query)) && !Matches(RegionalClinic, Lower(query))
    ensures SearchResult(query) == [CityGeneral]
  {
    var q := Lower(query);
    assert Lower("Cardiology") == "cardiology";
    assert LowerAll(CityGeneral.specialties)[0] == "cardiology";
    assert Matches(CityGeneral, q);
    var p := MatchesQuery(q);
    assert HospitalData[..1] == [CityGeneral];
    assert HospitalData[..2] == [CityGeneral, StMarys];
    assert Filter(HospitalData[..1], p) == [CityGeneral] by {
      assert HospitalData[..1][..0] == [];
    }
    FilterStep(HospitalData, 1, p);
    FilterStep(HospitalData, 2, p);
    assert HospitalData[..3] == HospitalData;
  }

  /** An HTTP error answer: `get_hospital` raises status 404, "Hospital not found". */
  datatype LookupError = HttpError(status: int)

  /** The lookup condition of the hospital service's own table. */
  function HasId(id: string): Hospital -> bool
  {
    (h: Hospital) => h.id == id
  }

  /** `get_hospital`: the first hospital with the id, or not-found. */
  function GetHospital(id: string): (r: Result<Hospital, LookupError>)
    ensures r.Ok? ==> r.value in HospitalData && r.value.id == id
    ensures r.Ok? ==>
      exists k :: 0 <= k < |HospitalData| && HospitalData[k] == r.value
                  && forall j :: 0 <= j < k ==> HospitalData[j].id != id
    ensures r.Err? <==> forall h :: h in HospitalData ==> h.id != id
    ensures r.Err? ==> r.error.status == 404
  {
    match FirstWhere(HospitalData, HasId(id))
    case Some(k) => Ok(HospitalData[k])
    case None => Err(HttpError(404))
  }
}
