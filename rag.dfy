/** The query orchestrator: health flags for the two data services, the fan-out
    that skips unhealthy services, and the synthesis of one answer with a
    confidence score (in tenths) from whatever came back. */
module Rag {
  import opened Wrappers
  import opened Text
  import opened Seqs
  import opened Wire
  import opened Render

  const HospitalWords: seq<string> := ["hospital", "doctor", "medical", "treatment", "emergency"]
  const InsuranceWords: seq<string> := ["insurance", "plan", "coverage", "premium", "deductible"]

  /** Fields a bullet line reads from each listed record. */
  const HospitalFields: set<string> := {"name", "location", "rating"}
  const PlanFields: set<string> := {"plan_name", "provider", "monthly_premium"}
  /** Records listed per service. */
  const ShowCap: nat := 3

  /** `is_hospital_query`: some hospital keyword occurs in the lowered query. */
  function IsHospitalQuery(query: string): (r: bool)
    ensures r <==> exists k :: 0 <= k < |HospitalWords| && Contains(Lower(query), HospitalWords[k])
  {
    AnyContainedIff(HospitalWords, Lower(query));
    AnyContained(HospitalWords, Lower(query))
  }

  /** `is_insurance_query`: some insurance keyword occurs in the lowered query. */
  function IsInsuranceQuery(query: string): (r: bool)
    ensures r <==> exists k :: 0 <= k < |InsuranceWords| && Contains(Lower(query), InsuranceWords[k])
  {
    AnyContainedIff(InsuranceWords, Lower(query));
    AnyContained(InsuranceWords, Lower(query))
  }

  /** The reply succeeded with a non-empty list: it adds 0.4 to the confidence. */
  predicate Contributes(r: Option<Reply>)
  {
    Succeeded(r) && |r.value.data| > 0
  }

  /** The hospital section is written when the hospital service contributes and the
      query is about hospitals or not about insurance. */
  predicate ShowsHospitals(query: string, h: Option<Reply>)
  {
    Contributes(h) && (IsHospitalQuery(query) || !IsInsuranceQuery(query))
  }

  /** The insurance section is written when the insurance service contributes and
      the query is about insurance or not about hospitals. */
  predicate ShowsPlans(query: string, i: Option<Reply>)
  {
    Contributes(i) && (IsInsuranceQuery(query) || !IsHospitalQuery(query))
  }

  datatype Message =
    | BothDown        // "I'm sorry, but our healthcare services are temporarily unavailable. ..."
    | HospitalDown    // "Hospital information is currently unavailable, ..."
    | InsuranceDown   // "Insurance information is currently unavailable, ..."
    | NothingFound    // "I couldn't find specific information for your query, ..."
    | Apology         // "I'm experiencing some technical difficulties right now. ..."

  datatype Answer = Lines(lines: seq<Line>) | Canned(message: Message)

  /** Result of `generate_response`: an answer with its confidence, or the
      `KeyError` raised while reading a record's fields. */
  datatype Synthesis = Synthesis(answer: Answer, confidence: nat) | KeyError

  /** The answer when no section was written; it depends only on the health flags. */
  function DegradedAnswer(hospitalUp: bool, insuranceUp: bool): Synthesis
  {
    if !hospitalUp && !insuranceUp then Synthesis(Canned(BothDown), 1)
    else if !hospitalUp then Synthesis(Canned(HospitalDown), 2)
    else if !insuranceUp then Synthesis(Canned(InsuranceDown), 2)
    else Synthesis(Canned(NothingFound), 3)
  }

  function HospitalSection(query: string, h: Option<Reply>): Option<seq<Line>>
  {
    if ShowsHospitals(query, h) then Section(HospitalDep, h.value.data, ShowCap, HospitalFields) else Some([])
  }

  function PlanSection(query: string, i: Option<Reply>): Option<seq<Line>>
  {
    if ShowsPlans(query, i) then Section(InsuranceDep, i.value.data, ShowCap, PlanFields) else Some([])
  }

  /** What `generate_response` computes, given the health flags it reads. */
  function Synthesize(query: string, h: Option<Reply>, i: Option<Reply>, hospitalUp: bool, insuranceUp: bool): Synthesis
  {
    var hs := HospitalSection(query, h);
    var ps := PlanSection(query, i);
    if hs.None? || ps.None? then KeyError
    else
      var parts := hs.value + ps.value;
      var c := (if Contributes(h) then 4 else 0) + (if Contributes(i) then 4 else 0);
      if parts == [] then DegradedAnswer(hospitalUp, insuranceUp)
      else if c > 5 then Synthesis(Lines(parts + [Advisory]), Min(c + 2, 9))
      else Synthesis(Lines(parts), c)
  }

  /** How the call to a data service ended inside `asyncio.gather`: the awaited
      call returned a value, or it raised (the exception is returned in its place). */
  datatype Settlement = Settled(outcome: Outcome) | Raised

  /** `safe_service_call`: the body on success, `None` on any of the four failures. */
  function SafeServiceCall(o: Outcome): (r: Option<Reply>)
    ensures r.Some? <==> o.Responded?
    ensures o.Responded? ==> r == Some(o.body)
  {
    if o.Responded? then Some(o.body) else None
  }

  /** The result used for one data service: `None` when the service is marked
      unhealthy (it is not called) or when its task raised. */
  function Gathered(up: bool, t: Settlement): Option<Reply>
  {
    if !up then None
    else match t
      case Settled(o) => SafeServiceCall(o)
      case Raised => None
  }

  datatype SourceData = Payload(reply: Reply) | Placeholder(dep: Dep)   // {"status": "unavailable", "message": ...}
  datatype Source = Source(available: bool, data: SourceData)
  datatype Sources = Sources(hospital: Source, insurance: Source) | ErrorDetail

  datatype RagStatus = RagSuccess | RagError

  /** Body of the orchestrator's `/query` reply. */
  datatype RagResponse = RagResponse(status: RagStatus, answer: Answer, sources: Sources, confidence: nat)

  /** `sources[dep]`: available when a result exists; the result itself when it is
      truthy, the placeholder otherwise. */
  function SourceOf(dep: Dep, r: Option<Reply>): Source
  {
    Source(r.Some?, if Truthy(r) then Payload(r.value) else Placeholder(dep))
  }

  /** What `process_query` returns for the given task results and health flags. */
  function Respond(query: string, ht: Settlement, it: Settlement, hospitalUp: bool, insuranceUp: bool): RagResponse
  {
    var h := Gathered(hospitalUp, ht);
    var i := Gathered(insuranceUp, it);
    match Synthesize(query, h, i, hospitalUp, insuranceUp)
    case KeyError => RagResponse(RagError, Canned(Apology), ErrorDetail, 0)
    case Synthesis(a, c) => RagResponse(RagSuccess, a, Sources(SourceOf(HospitalDep, h), SourceOf(InsuranceDep, i)), c)
  }

  /** How a `/health` probe of a data service ended. */
  datatype Probe = Answered(code: int) | ProbeFailed

  /** The orchestrator process: its `service_status` flags. */
  class RagService {
    var hospital: bool
    var insurance: bool
    var rag: bool

    constructor ()
      ensures !hospital && !insurance && rag
    {
      hospital, insurance, rag := false, false, true;
    }

    /** One monitoring tick, the start-up check, or `/refresh-services`: each flag
        becomes whether its probe got status 200; both are overwritten. */
    method RefreshServiceStatus(hospitalProbe: Probe, insuranceProbe: Probe)
      modifies this
      ensures hospital == (hospitalProbe == Answered(200))
      ensures insurance == (insuranceProbe == Answered(200))
      ensures rag == old(rag)
    {
      hospital := hospitalProbe.Answered? && hospitalProbe.code == 200;
      insurance := insuranceProbe.Answered? && insuranceProbe.code == 200;
    }

    /** `generate_response`: appends the sections and accumulates the confidence. */
    method GenerateResponse(query: string, h: Option<Reply>, i: Option<Reply>) returns (r: Synthesis)
      ensures r == Synthesize(query, h, i, hospital, insurance)
    {
      var isHospitalQuery := IsHospitalQuery(query);
      var isInsuranceQuery := IsInsuranceQuery(query);
      var parts: seq<Line> := [];
      var confidence := 0;
      var ok := true;
      if Succeeded(h) && |h.value.data| > 0 {
        confidence := confidence + 4;
        if isHospitalQuery || !isInsuranceQuery {
          ok, parts := RenderSection(parts, HospitalDep, h.value.data, ShowCap, HospitalFields);
          if !ok {
            return KeyError;
          }
        }
      }
      if Succeeded(i) && |i.value.data| > 0 {
        confidence := confidence + 4;
        if isInsuranceQuery || !isHospitalQuery {
          ok, parts := RenderSection(parts, InsuranceDep, i.value.data, ShowCap, PlanFields);
          if !ok {
            return KeyError;
          }
        }
      }
      ghost var hs, ps := HospitalSection(query, h), PlanSection(query, i);
      assert hs.Some? && ps.Some?;
      assert parts == hs.value + ps.value;
      assert confidence == (if Contributes(h) then 4 else 0) + (if Contributes(i) then 4 else 0);
      if parts == [] {
        if !hospital && !insurance {
          return Synthesis(Canned(BothDown), 1);
        } else if !hospital {
          return Synthesis(Canned(HospitalDown), 2);
        } else if !insurance {
          return Synthesis(Canned(InsuranceDown), 2);
        } else {
          return Synthesis(Canned(NothingFound), 3);
        }
      }
      if confidence > 5 {
        parts := parts + [Advisory];
        confidence := Min(confidence + 2, 9);
      }
      r := Synthesis(Lines(parts), confidence);
    }

    /** `process_query`: skip unhealthy services, turn raised tasks into `None`,
        synthesize, and report the sources; a `KeyError` becomes the apology. */
    method ProcessQuery(query: string, hospitalTask: Settlement, insuranceTask: Settlement) returns (resp: RagResponse)
      ensures resp == Respond(query, hospitalTask, insuranceTask, hospital, insurance)
    {
      var h: Option<Reply> := None;
      var i: Option<Reply> := None;
      if hospital {
        h := if hospitalTask.Settled? then SafeServiceCall(hospitalTask.outcome) else None;
      }
      if insurance {
        i := if insuranceTask.Settled? then SafeServiceCall(insuranceTask.outcome) else None;
      }
      var synthesis := GenerateResponse(query, h, i);
      if synthesis.KeyError? {
        return RagResponse(RagError, Canned(Apology), ErrorDetail, 0);
      }
      var sources := Sources(SourceOf(HospitalDep, h), SourceOf(InsuranceDep, i));
      resp := RagResponse(RagSuccess, synthesis.answer, sources, synthesis.confidence);
    }
  }

  /** The final confidence is always one of 0.1, 0.2, 0.3, 0.4 and 0.9. */
  lemma ConfidenceLevels(query: string, h: Option<Reply>, i: Option<Reply>, hospitalUp: bool, insuranceUp: bool)
    ensures var s := Synthesize(query, h, i, hospitalUp, insuranceUp);
      s.Synthesis? ==> s.confidence in {1, 2, 3, 4, 9}
  {
  }

  /** When at least one section is written, the confidence counts 0.4 per
      contributing service, whatever the intent: 0.9 (with the advisory line) when
      both contribute, 0.4 (without it) when one does. */
  lemma ConfidenceFromContributions(query: string, h: Option<Reply>, i: Option<Reply>, hospitalUp: bool, insuranceUp: bool)
    requires Synthesize(query, h, i, hospitalUp, insuranceUp).Synthesis?
    requires Synthesize(query, h, i, hospitalUp, insuranceUp).answer.Lines?
    ensures var s := Synthesize(query, h, i, hospitalUp, insuranceUp);
      && (s.confidence == 9 <==> Contributes(h) && Contributes(i))
      && (s.confidence == 4 <==> Contributes(h) != Contributes(i))
      && (Advisory in s.answer.lines <==> Contributes(h) && Contributes(i))
  {
    var hs, ps := HospitalSection(query, h), PlanSection(query, i);
    var parts := hs.value + ps.value;
    assert Advisory !in parts by {
      if ShowsHospitals(query, h) {
        SectionAdvisoryFree(HospitalDep, h.value.data, HospitalFields);
      }
      if ShowsPlans(query, i) {
        SectionAdvisoryFree(InsuranceDep, i.value.data, PlanFields);
      }
    }
  }

  lemma SectionAdvisoryFree(dep: Dep, items: seq<Item>, required: set<string>)
    requires Section(dep, items, ShowCap, required).Some?
    ensures Advisory !in Section(dep, items, ShowCap, required).value
  {
  }

  /** Which sections the answer holds: the hospital header appears exactly when the
      hospital service contributes and the intent does not exclude it, and likewise
      for insurance; each section lists at most three records. */
  lemma SectionsShown(query: string, h: Option<Reply>, i: Option<Reply>, hospitalUp: bool, insuranceUp: bool, d: Dep)
    requires Synthesize(query, h, i, hospitalUp, insuranceUp).Synthesis?
    requires Synthesize(query, h, i, hospitalUp, insuranceUp).answer.Lines?
    ensures var lines := Synthesize(query, h, i, hospitalUp, insuranceUp).answer.lines;
      var shown := if d == HospitalDep then ShowsHospitals(query, h) else ShowsPlans(query, i);
      && CountKind(lines, HeaderOf(d)) == (if shown then 1 else 0)
      && CountKind(lines, BulletOf(d)) <= ShowCap
      && (!shown ==> CountKind(lines, BulletOf(d)) == 0)
  {
    SectionCounts(query, h, i, hospitalUp, insuranceUp, HeaderOf(d));
    SectionCounts(query, h, i, hospitalUp, insuranceUp, BulletOf(d));
  }

  /** Counting one kind of line across the two sections and the advisory. */
  lemma SectionCounts(query: string, h: Option<Reply>, i: Option<Reply>, hospitalUp: bool, insuranceUp: bool, k: LineKind)
    requires Synthesize(query, h, i, hospitalUp, insuranceUp).Synthesis?
    requires Synthesize(query, h, i, hospitalUp, insuranceUp).answer.Lines?
    ensures var hs, ps := HospitalSection(query, h).value, PlanSection(query, i).value;
      && CountKind(Synthesize(query, h, i, hospitalUp, insuranceUp).answer.lines, k) == CountKind(hs, k) + CountKind(ps, k)
      && (ShowsHospitals(query, h) ==>
            CountKind(hs, k) == (if k == HeaderOf(HospitalDep) then 1 else if k == BulletOf(HospitalDep) then Min(ShowCap, |h.value.data|) else 0))
      && (!ShowsHospitals(query, h) ==> CountKind(hs, k) == 0)
      && (ShowsPlans(query, i) ==>
            CountKind(ps, k) == (if k == HeaderOf(InsuranceDep) then 1 else if k == BulletOf(InsuranceDep) then Min(ShowCap, |i.value.data|) else 0))
      && (!ShowsPlans(query, i) ==> CountKind(ps, k) == 0)
  {
    var hs, ps := HospitalSection(query, h), PlanSection(query, i);
    var lines := Synthesize(query, h, i, hospitalUp, insuranceUp).answer.lines;
    if ShowsHospitals(query, h) {
      SectionShape(HospitalDep, h.value.data, ShowCap, HospitalFields, k);
    }
    if ShowsPlans(query, i) {
      SectionShape(InsuranceDep, i.value.data, ShowCap, PlanFields, k);
    }
    CountKindAppend(hs.value, ps.value, k);
    if lines != hs.value + ps.value {
      CountKindAppend(hs.value + ps.value, [Advisory], k);
      assert CountKind([Advisory], k) == 0 by {
        assert [Advisory][..0] == [];
      }
    }
  }

  /** When no section is written, the answer is the degraded message chosen by the
      health flags alone, and the confidence accumulated so far is discarded. */
  lemma NoSectionDegraded(query: string, h: Option<Reply>, i: Option<Reply>, hospitalUp: bool, insuranceUp: bool)
    requires !ShowsHospitals(query, h) && !ShowsPlans(query, i)
    ensures Synthesize(query, h, i, hospitalUp, insuranceUp) == DegradedAnswer(hospitalUp, insuranceUp)
    ensures DegradedAnswer(hospitalUp, insuranceUp).confidence ==
      if !hospitalUp && !insuranceUp then 1 else if !hospitalUp || !insuranceUp then 2 else 3
  {
  }

  /** A section is written whenever its service contributes and the intent allows
      it, so a canned answer means neither section was written. */
  lemma CannedMeansNoSection(query: string, h: Option<Reply>, i: Option<Reply>, hospitalUp: bool, insuranceUp: bool)
    requires Synthesize(query, h, i, hospitalUp, insuranceUp).Synthesis?
    ensures Synthesize(query, h, i, hospitalUp, insuranceUp).answer.Canned? <==>
      !ShowsHospitals(query, h) && !ShowsPlans(query, i)
  {
    if ShowsHospitals(query, h) {
      SectionShape(HospitalDep, h.value.data, ShowCap, HospitalFields, HeaderOf(HospitalDep));
    }
    if ShowsPlans(query, i) {
      SectionShape(InsuranceDep, i.value.data, ShowCap, PlanFields, HeaderOf(InsuranceDep));
    }
  }

  /** `generate_response` raises exactly when a record it lists lacks a field. */
  lemma KeyErrorIff(query: string, h: Option<Reply>, i: Option<Reply>, hospitalUp: bool, insuranceUp: bool)
    ensures Synthesize(query, h, i, hospitalUp, insuranceUp).KeyError? <==>
      || (ShowsHospitals(query, h) && exists j :: 0 <= j < Min(ShowCap, |h.value.data|) && !HasFields(h.value.data[j], HospitalFields))
      || (ShowsPlans(query, i) && exists j :: 0 <= j < Min(ShowCap, |i.value.data|) && !HasFields(i.value.data[j], PlanFields))
  {
    if ShowsHospitals(query, h) {
      SectionShape(HospitalDep, h.value.data, ShowCap, HospitalFields, HeaderOf(HospitalDep));
    }
    if ShowsPlans(query, i) {
      SectionShape(InsuranceDep, i.value.data, ShowCap, PlanFields, HeaderOf(InsuranceDep));
    }
  }

  /** An unhealthy service is never called: its task result has no influence. */
  lemma UnhealthyNotCalled(query: string, ht: Settlement, ht': Settlement, it: Settlement, it': Settlement, hospitalUp: bool, insuranceUp: bool)
    ensures !hospitalUp ==> Respond(query, ht, it, hospitalUp, insuranceUp) == Respond(query, ht', it, hospitalUp, insuranceUp)
    ensures !insuranceUp ==> Respond(query, ht, it, hospitalUp, insuranceUp) == Respond(query, ht, it', hospitalUp, insuranceUp)
  {
  }

  /** The response is the apology with status "error" and confidence 0 exactly when
      synthesis raised; otherwise `sources[dep].available` says whether a result
      exists, and the placeholder stands in for a missing or empty one. */
  lemma ResponseShape(query: string, ht: Settlement, it: Settlement, hospitalUp: bool, insuranceUp: bool)
    ensures var r := Respond(query, ht, it, hospitalUp, insuranceUp);
      var h := Gathered(hospitalUp, ht);
      var i := Gathered(insuranceUp, it);
      && (r.status == RagError <==> Synthesize(query, h, i, hospitalUp, insuranceUp).KeyError?)
      && (r.status == RagError ==> r.confidence == 0 && r.answer == Canned(Apology) && r.sources == ErrorDetail)
      && (r.status == RagSuccess ==>
            && r.sources.Sources?
            && (r.sources.hospital.available <==> h.Some?)
            && (r.sources.insurance.available <==> i.Some?)
            && (r.sources.hospital.data.Placeholder? <==> !Truthy(h))
            && (r.sources.insurance.data.Placeholder? <==> !Truthy(i))
            && (Truthy(h) ==> r.sources.hospital.data == Payload(h.value))
            && (Truthy(i) ==> r.sources.insurance.data == Payload(i.value)))
      && (h.Some? ==> hospitalUp && ht.Settled? && ht.outcome.Responded?)
      && (i.Some? ==> insuranceUp && it.Settled? && it.outcome.Responded?)
  {
  }

  /** With both data services marked unhealthy the answer is the both-down apology
      with confidence 0.1, whatever the query. */
  lemma BothDownAnswer(query: string, ht: Settlement, it: Settlement)
    ensures Respond(query, ht, it, false, false).status == RagSuccess
    ensures Respond(query, ht, it, false, false).answer == Canned(BothDown)
    ensures Respond(query, ht, it, false, false).confidence == 1
  {
  }

  /** A hospital reply with well-formed records and no insurance records gives
      confidence 0.4 and lists the first hospital whenever the query is not only
      about insurance. */
  lemma HospitalOnlyAnswer(query: string, h: Option<Reply>, i: Option<Reply>, hospitalUp: bool, insuranceUp: bool)
    requires Contributes(h) && !Contributes(i)
    requires forall j :: 0 <= j < |h.value.data| ==> HasFields(h.value.data[j], HospitalFields)
    requires IsHospitalQuery(query) || !IsInsuranceQuery(query)
    ensures var s := Synthesize(query, h, i, hospitalUp, insuranceUp);
      && s.Synthesis? && s.confidence == 4 && s.answer.Lines?
      && Bullet(HospitalDep, h.value.data[0]) in s.answer.lines
  {
    var lines := Section(HospitalDep, h.value.data, ShowCap, HospitalFields).value;
    assert lines[1] == Bullet(HospitalDep, h.value.data[0]);
  }
}
