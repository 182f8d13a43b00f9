/**
 * The Flask back ends that serve cached leads (`main.py`, `main_ai.py`, `main_test.py`):
 * a leads cache and its timestamp, replaced by a successful fetch, and the
 * read-only routes that report it. The lock and the threads are left out;
 * each update is one sequential method call, the fetch outcome and the clock
 * reading its parameters.
 */
module LeadServers {
  import opened Wrappers
  import opened Strings
  import opened Collections
  import opened Tiers

  // ---------------------------------------------------------------------------
  // What the cache holds, and how a fetch changes it
  // ---------------------------------------------------------------------------

  /** The globals `leads_cache` and `last_update` at one moment. */
  datatype Snapshot<L> = Snapshot(leads: seq<L>, lastUpdate: Option<string>)

  /** One update attempt: what the scraper returned or raised, and the `strftime` reading taken after it. */
  datatype Fetch<L> = Fetch(result: Result<seq<L>>, at: string)

  /** The state an update leaves behind: a fetched list replaces both globals, a raised fetch leaves both. */
  function Apply<L>(s: Snapshot<L>, f: Fetch<L>): (r: Snapshot<L>)
    ensures f.result.Ok? ==> r.leads == f.result.value && r.lastUpdate == Some(f.at)
    ensures f.result.Err? ==> r == s
    ensures r.lastUpdate.Some? || r == s
  {
    if f.result.Ok? then Snapshot(f.result.value, Some(f.at)) else s
  }

  /**
   * The state after the updates `fs` in turn, each failure caught: the last successful
   * fetch decides it, and when none succeeded the state is as it was.
   */
  function AfterAll<L>(s: Snapshot<L>, fs: seq<Fetch<L>>): (r: Snapshot<L>)
    ensures (forall i :: 0 <= i < |fs| ==> fs[i].result.Err?) ==> r == s
    ensures forall i :: 0 <= i < |fs| && fs[i].result.Ok? && (forall j :: i < j < |fs| ==> fs[j].result.Err?) ==>
              r == Snapshot(fs[i].result.value, Some(fs[i].at))
  {
    if fs == [] then s
    else
      var p := fs[..|fs| - 1];
      var r := Apply(AfterAll(s, p), fs[|fs| - 1]);
      assert forall i :: 0 <= i < |p| ==> p[i] == fs[i];
      r
  }

  /** The number of leading successful fetches: where an update loop without a handler stops. */
  function FirstFailure<L>(fs: seq<Fetch<L>>): (k: nat)
    ensures k <= |fs|
    ensures forall i :: 0 <= i < k ==> fs[i].result.Ok?
    ensures k < |fs| ==> fs[k].result.Err?
  {
    if fs == [] then 0
    else if fs[0].result.Err? then 0
    else 1 + FirstFailure(fs[1..])
  }

  /** Catching loop at step `i`. */
  lemma AfterAllStep<L>(s: Snapshot<L>, fs: seq<Fetch<L>>, i: nat)
    requires i < |fs|
    ensures AfterAll(s, fs[..i + 1]) == Apply(AfterAll(s, fs[..i]), fs[i])
  {
    assert fs[..i + 1][..i] == fs[..i];
  }

  /**
   * Without a handler, the updates that ran are the successful prefix, and the state is
   * that of the last of them (or unchanged when the first fetch raised).
   */
  lemma PropagatingLoopState<L>(s: Snapshot<L>, fs: seq<Fetch<L>>)
    ensures var k := FirstFailure(fs);
            var r := AfterAll(s, fs[..k]);
            (k == 0 ==> r == s) &&
            (k > 0 ==> r == Snapshot(fs[k - 1].result.value, Some(fs[k - 1].at)))
  {
    var k := FirstFailure(fs);
    var p := fs[..k];
    assert forall i :: 0 <= i < |p| ==> p[i] == fs[i];
  }

  /** A failing fetch ends the loop without a handler, so any later success is lost to it. */
  lemma FailureHidesLaterSuccess<L>(s: Snapshot<L>, fs: seq<Fetch<L>>, i: nat, j: nat)
    requires i < j < |fs| && fs[i].result.Err? && fs[j].result.Ok?
    requires forall m :: 0 <= m < i ==> fs[m].result.Ok?
    requires forall m :: j < m < |fs| ==> fs[m].result.Err?
    ensures FirstFailure(fs) == i
    ensures AfterAll(s, fs) == Snapshot(fs[j].result.value, Some(fs[j].at))
  {
  }

  // ---------------------------------------------------------------------------
  // Route replies
  // ---------------------------------------------------------------------------

  /** `/api/leads`: the cache, its timestamp and its length. */
  datatype LeadsReply<L> = LeadsReply(leads: seq<L>, lastUpdate: Option<string>, count: nat)

  /** `/health`; `main_ai.py` adds `'ai_status': 'active'`. */
  datatype HealthReply = HealthReply(status: string, leadsCount: nat, lastUpdate: Option<string>, aiStatus: Option<string>)

  /** `/api/refresh` after a synchronous update (`main.py`). */
  datatype RefreshReply = RefreshReply(status: string, message: string, count: nat, lastUpdate: Option<string>)

  /** `/api/refresh` that only starts an update thread (`main_ai.py`, `main_test.py`). */
  datatype StartedReply = StartedReply(status: string, message: string, currentCount: nat, lastUpdate: Option<string>)

  const Healthy: string := "healthy"
  const Success: string := "success"
  const Active: string := "active"
  const RefreshedMessage: string := "Leads refreshed"

  // ---------------------------------------------------------------------------
  // The cache
  // ---------------------------------------------------------------------------

  /** The module globals `leads_cache` and `last_update` of one server process. */
  class LeadsCache<L> {
    var leads: seq<L>
    var lastUpdate: Option<string>

    function State(): Snapshot<L>
      reads this
    {
      Snapshot(leads, lastUpdate)
    }

    /** Before any update the cache is empty and there is no timestamp. */
    constructor()
      ensures leads == [] && lastUpdate == None
    {
      leads := [];
      lastUpdate := None;
    }

    /**
     * `update_leads` of `main.py`: the fetch's exception propagates to the caller before
     * either global is assigned.
     */
    method UpdateOrRaise(f: Fetch<L>) returns (r: Result<nat>)
      modifies this
      ensures State() == Apply(old(State()), f)
      ensures r.Ok? <==> f.result.Ok?
      ensures r.Err? ==> r.error == f.result.error
      ensures r.Ok? ==> r.value == |leads|
    {
      if f.result.Err? {
        return Err(f.result.error);
      }
      leads := f.result.value;
      lastUpdate := Some(f.at);
      r := Ok(|leads|);
    }

    /** `update_leads` of `main_ai.py` and `update_leads_async` of `main_test.py`: a raised fetch is caught and ignored. */
    method UpdateOrKeep(f: Fetch<L>)
      modifies this
      ensures State() == Apply(old(State()), f)
    {
      match f.result
      case Ok(fetched) =>
        leads := fetched;
        lastUpdate := Some(f.at);
      case Err(_) =>
    }

    /** `get_leads`. */
    method GetLeads() returns (r: LeadsReply<L>)
      ensures r.leads == leads && r.lastUpdate == lastUpdate
      ensures r.count == |r.leads|
    {
      r := LeadsReply(leads, lastUpdate, |leads|);
    }

    /** `health`; `withAiStatus` for the AI server's extra entry. */
    method Health(withAiStatus: bool) returns (r: HealthReply)
      ensures r.status == Healthy && r.leadsCount == |leads| && r.lastUpdate == lastUpdate
      ensures r.aiStatus.Some? <==> withAiStatus
      ensures withAiStatus ==> r.aiStatus == Some(Active)
    {
      r := HealthReply(Healthy, |leads|, lastUpdate, if withAiStatus then Some(Active) else None);
    }

    /**
     * `refresh_leads` of `main.py`: the update runs first, so the reply reports the new
     * cache; a raising fetch makes the route itself fail.
     */
    method RefreshNow(f: Fetch<L>) returns (r: Result<RefreshReply>)
      modifies this
      ensures State() == Apply(old(State()), f)
      ensures r.Ok? <==> f.result.Ok?
      ensures r.Ok? ==> r.value.count == |f.result.value| == |leads| && r.value.lastUpdate == Some(f.at)
      ensures r.Ok? ==> r.value.status == Success && r.value.message == RefreshedMessage
      ensures r.Err? ==> r.error == f.result.error
    {
      var u := UpdateOrRaise(f);
      if u.Err? {
        return Err(u.error);
      }
      r := Ok(RefreshReply(Success, RefreshedMessage, |leads|, lastUpdate));
    }

    /**
     * `refresh_leads` of `main_ai.py` and `main_test.py`: the reply is built before the
     * started update has run, so it reports the cache as it was.
     */
    method RefreshStarted(message: string) returns (r: StartedReply)
      ensures r.currentCount == |leads| && r.lastUpdate == lastUpdate
      ensures r.status == Success && r.message == message
    {
      r := StartedReply(Success, message, |leads|, lastUpdate);
    }

    /**
     * `background_update` of `main.py` over a finite run of hourly fetches: there is no
     * handler, so the first raised fetch ends the thread. Returns how many updates ran.
     */
    method BackgroundUpdate(fs: seq<Fetch<L>>) returns (ran: nat)
      modifies this
      ensures ran == FirstFailure(fs)
      ensures State() == AfterAll(old(State()), fs[..ran])
    {
      ran := 0;
      while ran < |fs|
        invariant ran <= FirstFailure(fs)
        invariant State() == AfterAll(old(State()), fs[..ran])
      {
        AfterAllStep(old(State()), fs, ran);
        var u := UpdateOrRaise(fs[ran]);
        if u.Err? {
          return;
        }
        ran := ran + 1;
      }
    }

    /** `background_update` of `main_ai.py`: every failure is caught, so every fetch is tried. */
    method BackgroundUpdateCatching(fs: seq<Fetch<L>>)
      modifies this
      ensures State() == AfterAll(old(State()), fs)
    {
      ghost var s0 := State();
      for i := 0 to |fs|
        invariant State() == AfterAll(s0, fs[..i])
      {
        AfterAllStep(s0, fs, i);
        UpdateOrKeep(fs[i]);
      }
      assert fs[..|fs|] == fs;
    }

    /** `get_stats` of `main_ai.py`, over the cache; `fields` reads the entries a lead dictionary has. */
    method GetStats(fields: L -> LeadFields) returns (r: Stats)
      ensures r == StatsOf(leads, fields)
    {
      var byType := map[];
      var byOrganization := map[];
      for i := 0 to |leads|
        invariant byType == AddCounts(map[], leads[..i], TypeKeyOf(fields))
      {
        byType := CountNext(byType, map[], leads, TypeKeyOf(fields), i);
      }
      for i := 0 to |leads|
        invariant byOrganization == AddCounts(map[], leads[..i], OrgKeyOf(fields))
      {
        byOrganization := CountNext(byOrganization, map[], leads, OrgKeyOf(fields), i);
      }
      assert leads[..|leads|] == leads;
      r := Stats(|leads|, CountWhere(leads, TierTest(fields, Tier1)), CountWhere(leads, TierTest(fields, Tier2)),
                 byType, byOrganization);
    }
  }

  // ---------------------------------------------------------------------------
  // `get_stats` of `main_ai.py`
  // ---------------------------------------------------------------------------

  /** The entries `get_stats` reads with `lead.get(key, default)`; `None` is a missing key. */
  datatype LeadFields = LeadFields(tier: Option<string>, trainingType: Option<string>, organization: Option<string>)

  datatype Stats = Stats(totalLeads: nat, urgentLeads: nat, highPriorityLeads: nat,
                         byType: map<string, nat>, byOrganization: map<string, nat>)

  const Tier1: string := "Tier 1"
  const Tier2: string := "Tier 2"
  const OtherType: string := "Other"

  /** `'Tier 1' in l.get('tier', '')`, as a test on leads. */
  function TierTest<L>(fields: L -> LeadFields, t: string): L -> bool {
    l => Contains(fields(l).tier.GetOr(""), t)
  }

  /** `lead.get('training_type', 'Other')`. */
  function TypeKeyOf<L>(fields: L -> LeadFields): L -> string {
    l => fields(l).trainingType.GetOr(OtherType)
  }

  const Federal: string := "Federal"
  const Provincial: string := "Provincial"
  const Municipal: string := "Municipal"
  const Other: string := "Other"
  const OrgKinds: seq<string> := [Federal, Provincial, Municipal, Other]

  const GovernmentOfCanada: string := "Government of Canada"
  const Provinces: seq<string> := ["Ontario", "British Columbia", "Alberta", "Quebec"]
  const CityWord: string := "City"
  const MunicipalWord: string := "Municipal"

  /** The first-match organization classifier of lines 97-105. */
  function OrgKind(org: string): (r: string)
    ensures r in OrgKinds
    ensures r == Federal <==> Contains(org, GovernmentOfCanada)
    ensures r == Provincial <==> !Contains(org, GovernmentOfCanada) && ContainsAny(org, Provinces)
    ensures r == Municipal <==> !Contains(org, GovernmentOfCanada) && !ContainsAny(org, Provinces) &&
                                (Contains(org, CityWord) || Contains(org, MunicipalWord))
  {
    if Contains(org, GovernmentOfCanada) then Federal
    else if ContainsAny(org, Provinces) then Provincial
    else if Contains(org, CityWord) || Contains(org, MunicipalWord) then Municipal
    else Other
  }

  /** `lead.get('organization', '')`, classified. */
  function OrgKeyOf<L>(fields: L -> LeadFields): L -> string {
    l => OrgKind(fields(l).organization.GetOr(""))
  }

  /** The dictionary `get_stats` returns, apart from `total_value`. */
  function StatsOf<L>(leads: seq<L>, fields: L -> LeadFields): (r: Stats)
    ensures r.totalLeads == |leads|
    ensures r.urgentLeads <= r.totalLeads && r.highPriorityLeads <= r.totalLeads
    ensures forall k :: Get(r.byType, k) == CountOf(leads, TypeKeyOf(fields), k)
    ensures r.byType.Keys == Image(leads, TypeKeyOf(fields))
    ensures forall k :: k in r.byOrganization ==> k in OrgKinds
    ensures forall k :: Get(r.byOrganization, k) == CountOf(leads, OrgKeyOf(fields), k)
  {
    Stats(|leads|, CountWhere(leads, TierTest(fields, Tier1)), CountWhere(leads, TierTest(fields, Tier2)),
          AddCounts(map[], leads, TypeKeyOf(fields)), AddCounts(map[], leads, OrgKeyOf(fields)))
  }

  lemma OrgKindsDistinct()
    ensures Distinct(OrgKinds)
  {
  }

  /** Each lead is counted under exactly one organization kind, so `by_organization` adds up to `total_leads`. */
  lemma ByOrganizationTotal<L>(leads: seq<L>, fields: L -> LeadFields)
    ensures SumValues(StatsOf(leads, fields).byOrganization, OrgKinds) == |leads|
  {
    OrgKindsDistinct();
    CountsTotal(map[], leads, OrgKeyOf(fields), OrgKinds);
  }

  /** `by_type` adds up to `total_leads`, over any list naming each of its keys once. */
  lemma ByTypeTotal<L>(leads: seq<L>, fields: L -> LeadFields, ks: seq<string>)
    requires Distinct(ks)
    requires forall k :: k in StatsOf(leads, fields).byType ==> k in ks
    ensures SumValues(StatsOf(leads, fields).byType, ks) == |leads|
  {
    var f := TypeKeyOf(fields);
    forall i | 0 <= i < |leads| ensures f(leads[i]) in ks {
      assert f(leads[i]) in Image(leads, f);
    }
    CountsTotal(map[], leads, f, ks);
  }

  /** A lead without a `training_type` entry is counted under `'Other'`. */
  lemma {:induction false} MissingTypeCountsAsOther<L>(leads: seq<L>, fields: L -> LeadFields)
    ensures Get(StatsOf(leads, fields).byType, OtherType) >= CountWhere(leads, l => fields(l).trainingType.None?)
  {
    MissingTypeCount(leads, fields);
  }

  lemma {:induction false} MissingTypeCount<L>(leads: seq<L>, fields: L -> LeadFields)
    ensures CountOf(leads, TypeKeyOf(fields), OtherType) >= CountWhere(leads, l => fields(l).trainingType.None?)
  {
    if leads != [] {
      MissingTypeCount(leads[..|leads| - 1], fields);
    }
  }

  /**
   * When every lead carries a tier label, the urgent and high-priority counts count the
   * two tiers, so together they are at most the total.
   */
  lemma {:induction false} LabelledTierCounts<L>(leads: seq<L>, fields: L -> LeadFields, tierOf: L -> Tier)
    requires forall i :: 0 <= i < |leads| ==> fields(leads[i]).tier == Some(Label(tierOf(leads[i])))
    ensures CountWhere(leads, TierTest(fields, Tier1)) == CountWhere(leads, l => tierOf(l) == Urgent)
    ensures CountWhere(leads, TierTest(fields, Tier2)) == CountWhere(leads, l => tierOf(l) == HighPriority)
    ensures StatsOf(leads, fields).urgentLeads + StatsOf(leads, fields).highPriorityLeads <= |leads|
  {
    if leads != [] {
      var p := leads[..|leads| - 1];
      var x := leads[|leads| - 1];
      assert forall i :: 0 <= i < |p| ==> p[i] == leads[i];
      LabelledTierCounts(p, fields, tierOf);
      LabelTiers(tierOf(x));
    }
  }
}
