/** The public gateway: a breaker table shared by all requests, calls to the three
    downstream services gated by it, the main query route with its fallback, and
    the admin reset. */
module Gateway {
  import opened Wrappers
  import opened Wire
  import opened Render
  import opened Seqs
  import opened Breakers

  /** Fields the gateway's fallback answer reads from each listed record (fewer
      than the orchestrator's answer reads). */
  const FallbackHospitalFields: set<string> := {"name", "location"}
  const FallbackPlanFields: set<string> := {"plan_name", "monthly_premium"}
  /** Records listed per service in the fallback answer. */
  const FallbackCap: nat := 2

  /** The breaker table after a reset, and at start-up. */
  const AllClosed: map<Service, Breaker> := map[Hospital := Closed, Insurance := Closed, Rag := Closed]

  /** Result of `call_service` on a breaker in state `b` at `now`, when the HTTP
      call (if it is made) ends with `o`. */
  function CallResult(b: Breaker, now: int, o: Outcome): Option<Reply>
  {
    if !Permits(b, now) then None
    else if o.Responded? then Some(o.body)
    else None
  }

  /** Breaker state after `call_service`: the gate's own change, then a success or
      one failure when the call was made. */
  function CallStep(b: Breaker, now: int, o: Outcome): Breaker
  {
    var gated := AfterPermits(b, now);
    if !Permits(b, now) then gated
    else if o.Responded? then AfterSuccess(gated)
    else AfterFailure(gated, now)
  }

  /** A refused call records nothing and yields `None`; a success records a success
      and yields the body; each of the four failure kinds records exactly one
      failure and yields `None`. */
  lemma CallOutcomes(b: Breaker, now: int, o: Outcome)
    ensures !Permits(b, now) ==> CallStep(b, now, o) == b && CallResult(b, now, o) == None
    ensures Permits(b, now) && o.Responded? ==>
      CallStep(b, now, o) == AfterSuccess(AfterPermits(b, now)) && CallResult(b, now, o) == Some(o.body)
    ensures Permits(b, now) && !o.Responded? ==>
      && CallStep(b, now, o).failures == AfterPermits(b, now).failures + 1
      && CallStep(b, now, o).lastFailure == Some(now)
      && CallResult(b, now, o) == None
  {
  }

  /** A call keeps the breaker invariant. */
  lemma CallKeepsInv(b: Breaker, now: int, o: Outcome)
    requires Inv(b)
    ensures Inv(CallStep(b, now, o))
  {
    TransitionsKeepInv(b, now);
    TransitionsKeepInv(AfterPermits(b, now), now);
  }

  datatype Status = Success | Degraded | Error

  datatype Answer =
    | Lines(lines: seq<Line>)
    | Unavailable              // "Services are temporarily unavailable. ..."
    | TechnicalDifficulties    // "I'm experiencing technical difficulties. ..."

  /** What `/api/query` returns. */
  datatype Response =
    | Relayed(data: Reply)                                                // the orchestrator's reply
    | Fallback(answer: Answer, confidence: nat, sources: map<Service, Reply>)
    | Failed(answer: Answer, confidence: nat)                            // an error inside the route

  function StatusOf(r: Response): Status
  {
    match r
    case Relayed(_) => Success
    case Fallback(_, _, _) => Degraded
    case Failed(_, _) => Error
  }

  /** What the route's exception handler returns: the fixed apology, confidence 0. */
  const RouteFailure := Failed(TechnicalDifficulties, 0)

  /** The fallback answer built from the direct hospital and insurance replies;
      confidence in tenths. A listed record lacking a field raises `KeyError`, which
      the route turns into `RouteFailure`. */
  function FallbackResponse(h: Option<Reply>, i: Option<Reply>): Response
  {
    var hs := if Succeeded(h) then Section(HospitalDep, h.value.data, FallbackCap, FallbackHospitalFields) else Some([]);
    var ps := if Succeeded(i) then Section(InsuranceDep, i.value.data, FallbackCap, FallbackPlanFields) else Some([]);
    if hs.None? || ps.None? then RouteFailure
    else
      var sources := (if Succeeded(h) then map[Hospital := h.value] else map[])
                   + (if Succeeded(i) then map[Insurance := i.value] else map[]);
      if sources == map[] then Fallback(Unavailable, 1, sources)
      else Fallback(Lines([Intro] + hs.value + ps.value), 7, sources)
  }

  /** Builds the fallback answer the way the route does, appending lines in loops. */
  method BuildFallback(h: Option<Reply>, i: Option<Reply>) returns (resp: Response)
    ensures resp == FallbackResponse(h, i)
  {
    var answer := [Intro];
    var sources: map<Service, Reply> := map[];
    var ok := true;
    if Succeeded(h) {
      ok, answer := RenderSection(answer, HospitalDep, h.value.data, FallbackCap, FallbackHospitalFields);
      if !ok {
        return RouteFailure;
      }
      sources := sources[Hospital := h.value];
    }
    if Succeeded(i) {
      ok, answer := RenderSection(answer, InsuranceDep, i.value.data, FallbackCap, FallbackPlanFields);
      if !ok {
        return RouteFailure;
      }
      sources := sources[Insurance := i.value];
    }
    assert Hospital in sources <==> Succeeded(h);
    assert Insurance in sources <==> Succeeded(i);
    assert sources == (if Succeeded(h) then map[Hospital := h.value] else map[])
                    + (if Succeeded(i) then map[Insurance := i.value] else map[]);
    ghost var hs := if Succeeded(h) then Section(HospitalDep, h.value.data, FallbackCap, FallbackHospitalFields) else Some([]);
    ghost var ps := if Succeeded(i) then Section(InsuranceDep, i.value.data, FallbackCap, FallbackPlanFields) else Some([]);
    assert hs.Some? && ps.Some?;
    assert answer == [Intro] + hs.value + ps.value;
    if sources == map[] {
      resp := Fallback(Unavailable, 1, sources);
    } else {
      resp := Fallback(Lines(answer), 7, sources);
    }
  }

  /** The fallback is degraded, never an error, unless a listed record lacks a field,
      and then it is the apology with confidence 0; its confidence is 0.7 exactly when
      one of the two services answered with status "success", and otherwise 0.1 with
      the fixed unavailable message; `sources` holds the replies of exactly the
      services that succeeded. */
  lemma FallbackOutcome(h: Option<Reply>, i: Option<Reply>)
    ensures var r := FallbackResponse(h, i);
      && (r.Failed? <==>
            ((Succeeded(h) && exists j :: 0 <= j < Min(FallbackCap, |h.value.data|) && !HasFields(h.value.data[j], FallbackHospitalFields))
             || (Succeeded(i) && exists j :: 0 <= j < Min(FallbackCap, |i.value.data|) && !HasFields(i.value.data[j], FallbackPlanFields))))
      && (r.Failed? ==> StatusOf(r) == Error && r.answer == TechnicalDifficulties && r.confidence == 0)
      && (!r.Failed? ==> StatusOf(r) == Degraded && r.Fallback?)
      && (r.Fallback? ==> (r.confidence == 7 <==> Succeeded(h) || Succeeded(i)))
      && (r.Fallback? ==> (r.confidence == 1 <==> r.answer == Unavailable))
      && (r.Fallback? ==> r.confidence in {1, 7})
      && (r.Fallback? ==> (Hospital in r.sources <==> Succeeded(h)) && (Insurance in r.sources <==> Succeeded(i)))
      && (r.Fallback? ==> r.sources.Keys <= {Hospital, Insurance})
      && (r.Fallback? && Hospital in r.sources ==> r.sources[Hospital] == h.value)
      && (r.Fallback? && Insurance in r.sources ==> r.sources[Insurance] == i.value)
  {
    if Succeeded(h) {
      SectionShape(HospitalDep, h.value.data, FallbackCap, FallbackHospitalFields, HeaderOf(HospitalDep));
    }
    if Succeeded(i) {
      SectionShape(InsuranceDep, i.value.data, FallbackCap, FallbackPlanFields, HeaderOf(InsuranceDep));
    }
    var sources := (if Succeeded(h) then map[Hospital := h.value] else map[])
                 + (if Succeeded(i) then map[Insurance := i.value] else map[]);
    assert Hospital in sources <==> Succeeded(h);
    assert Insurance in sources <==> Succeeded(i);
  }

  /** The fallback lists at most two records per service, one header per service
      that answered with records, and nothing about a service that did not answer. */
  lemma FallbackAtMostTwo(h: Option<Reply>, i: Option<Reply>, d: Dep)
    requires FallbackResponse(h, i).Fallback? && FallbackResponse(h, i).answer.Lines?
    ensures var lines := FallbackResponse(h, i).answer.lines;
      var r := if d == HospitalDep then h else i;
      && CountKind(lines, BulletOf(d)) <= FallbackCap
      && CountKind(lines, HeaderOf(d)) == (if Succeeded(r) && |r.value.data| > 0 then 1 else 0)
      && CountKind(lines, BulletOf(d)) == (if Succeeded(r) then Min(FallbackCap, |r.value.data|) else 0)
  {
    var hs := if Succeeded(h) then Section(HospitalDep, h.value.data, FallbackCap, FallbackHospitalFields) else Some([]);
    var ps := if Succeeded(i) then Section(InsuranceDep, i.value.data, FallbackCap, FallbackPlanFields) else Some([]);
    CountLinesOf(hs.value, ps.value, h, i, BulletOf(d));
    CountLinesOf(hs.value, ps.value, h, i, HeaderOf(d));
  }

  lemma CountLinesOf(hs: seq<Line>, ps: seq<Line>, h: Option<Reply>, i: Option<Reply>, k: LineKind)
    requires Succeeded(h) ==> Section(HospitalDep, h.value.data, FallbackCap, FallbackHospitalFields) == Some(hs)
    requires !Succeeded(h) ==> hs == []
    requires Succeeded(i) ==> Section(InsuranceDep, i.value.data, FallbackCap, FallbackPlanFields) == Some(ps)
    requires !Succeeded(i) ==> ps == []
    ensures CountKind([Intro] + hs + ps, k) == CountKind(hs, k) + CountKind(ps, k)
    ensures Succeeded(h) ==>
      CountKind(hs, k) ==
        (if k == HeaderOf(HospitalDep) && h.value.data != [] then 1
         else if k == BulletOf(HospitalDep) then Min(FallbackCap, |h.value.data|) else 0)
    ensures Succeeded(i) ==>
      CountKind(ps, k) ==
        (if k == HeaderOf(InsuranceDep) && i.value.data != [] then 1
         else if k == BulletOf(InsuranceDep) then Min(FallbackCap, |i.value.data|) else 0)
  {
    if Succeeded(h) {
      SectionShape(HospitalDep, h.value.data, FallbackCap, FallbackHospitalFields, k);
    }
    if Succeeded(i) {
      SectionShape(InsuranceDep, i.value.data, FallbackCap, FallbackPlanFields, k);
    }
    CountKindAppend([Intro], hs, k);
    CountKindAppend([Intro] + hs, ps, k);
    assert CountKind([Intro], k) == 0 by {
      assert [Intro][..0] == [];
    }
  }

  /** The gateway process: its breaker table (`circuit_breaker`). */
  class GatewayState {
    var breakers: map<Service, Breaker>

    /** Every service has a breaker, and each keeps the breaker invariant. */
    ghost predicate Valid()
      reads this
    {
      && Hospital in breakers && Insurance in breakers && Rag in breakers
      && forall s :: s in breakers ==> Inv(breakers[s])
    }

    constructor ()
      ensures Valid()
      ensures breakers == AllClosed
    {
      breakers := AllClosed;
    }

    /** `should_call_service`: a closed breaker permits; an open one permits and
        closes again once the cooldown has run out, and refuses otherwise. */
    method ShouldCallService(s: Service, now: int) returns (permit: bool)
      requires Valid()
      modifies this
      ensures Valid()
      ensures permit == Permits(old(breakers[s]), now)
      ensures breakers == old(breakers)[s := AfterPermits(old(breakers[s]), now)]
    {
      var b := breakers[s];
      if !b.open {
        return true;
      }
      if b.lastFailure.Some? {
        if now - b.lastFailure.value > CircuitTimeout {
          b := b.(failures := 0);
          b := b.(open := false);
          b := b.(lastFailure := None);
          breakers := breakers[s := b];
          return true;
        }
      }
      return false;
    }

    /** `record_service_failure` */
    method RecordServiceFailure(s: Service, now: int)
      requires Valid()
      modifies this
      ensures Valid()
      ensures breakers == old(breakers)[s := AfterFailure(old(breakers[s]), now)]
    {
      var b := breakers[s];
      b := b.(failures := b.failures + 1);
      b := b.(lastFailure := Some(now));
      if b.failures >= MaxFailures {
        b := b.(open := true);
      }
      breakers := breakers[s := b];
    }

    /** `record_service_success` */
    method RecordServiceSuccess(s: Service)
      requires Valid()
      modifies this
      ensures Valid()
      ensures breakers == old(breakers)[s := AfterSuccess(old(breakers[s]))]
    {
      var b := breakers[s];
      if b.failures > 0 {
        b := b.(failures := 0);
        b := b.(lastFailure := None);
        b := b.(open := false);
        breakers := breakers[s := b];
      }
    }

    /** `call_service`: only the named service's breaker changes. */
    method CallService(s: Service, now: int, outcome: Outcome) returns (r: Option<Reply>)
      requires Valid()
      modifies this
      ensures Valid()
      ensures r == CallResult(old(breakers[s]), now, outcome)
      ensures breakers == old(breakers)[s := CallStep(old(breakers[s]), now, outcome)]
    {
      var permit := ShouldCallService(s, now);
      if !permit {
        return None;
      }
      if outcome.Responded? {
        RecordServiceSuccess(s);
        return Some(outcome.body);
      }
      RecordServiceFailure(s, now);
      return None;
    }

    /** `reset_circuit_breakers`: overwrites every entry, one after the other. */
    method ResetCircuitBreakers()
      requires Valid()
      modifies this
      ensures Valid()
      ensures breakers == AllClosed
    {
      var names := [Hospital, Insurance, Rag];
      for k := 0 to |names|
        invariant Valid()
        invariant forall j :: 0 <= j < k ==> breakers[names[j]] == Closed
      {
        breakers := breakers[names[k] := Closed];
      }
      forall s | s in breakers
        ensures s in AllClosed && breakers[s] == AllClosed[s]
      {
        match s
        case Hospital => assert s == names[0];
        case Insurance => assert s == names[1];
        case Rag => assert s == names[2];
      }
      assert breakers.Keys == AllClosed.Keys;
    }

    /** `/api/query`: relay the orchestrator's reply when there is one, otherwise
        call the two data services directly and build the fallback answer. All
        calls of one request read the clock as `now`. */
    method ProcessQuery(now: int, ragOutcome: Outcome, hospitalOutcome: Outcome, insuranceOutcome: Outcome)
      returns (resp: Response)
      requires Valid()
      modifies this
      ensures Valid()
      ensures var rag := CallResult(old(breakers[Rag]), now, ragOutcome);
        var ragState := old(breakers)[Rag := CallStep(old(breakers[Rag]), now, ragOutcome)];
        if Truthy(rag) then
          resp == Relayed(rag.value) && breakers == ragState
        else
          var h := CallResult(old(breakers[Hospital]), now, hospitalOutcome);
          var i := CallResult(old(breakers[Insurance]), now, insuranceOutcome);
          && resp == FallbackResponse(h, i)
          && breakers == ragState[Hospital := CallStep(old(breakers[Hospital]), now, hospitalOutcome)]
                                 [Insurance := CallStep(old(breakers[Insurance]), now, insuranceOutcome)]
    {
      var rag := CallService(Rag, now, ragOutcome);
      if Truthy(rag) {
        return Relayed(rag.value);
      }
      var h := CallService(Hospital, now, hospitalOutcome);
      var i := CallService(Insurance, now, insuranceOutcome);
      resp := BuildFallback(h, i);
    }
  }

  /** With the orchestrator's breaker refusing, the route falls back to the direct
      calls, and the answer is degraded (not an error) with confidence 0.7 when one
      of them succeeds with well-formed records. */
  lemma RagRefusedFallsBack(b: Breaker, now: int, ragOutcome: Outcome, h: Option<Reply>, i: Option<Reply>)
    requires !Permits(b, now)
    requires Succeeded(h)
    requires forall j :: 0 <= j < |h.value.data| ==> HasFields(h.value.data[j], FallbackHospitalFields)
    requires Succeeded(i) ==> forall j :: 0 <= j < |i.value.data| ==> HasFields(i.value.data[j], FallbackPlanFields)
    ensures !Truthy(CallResult(b, now, ragOutcome))
    ensures StatusOf(FallbackResponse(h, i)) == Degraded
    ensures FallbackResponse(h, i).confidence == 7
  {
    FallbackOutcome(h, i);
  }
}
