/**
  * The dashboard page's refresh: pick the selected client's demo record, apply the
  * scenario, overlay live Microsoft 365 data for Academic Therapy Publications when it
  * loads, and drop the services whose checkbox is off.
  */
module IndexPage {
  import opened Wrappers
  import opened Dicts
  import opened Strings
  import opened DemoData
  import M365Live

  /** The four service checkboxes. */
  datatype Toggles = Toggles(m365: bool, pp: bool, duo: bool, s1: bool)

  const ALL_ON := Toggles(true, true, true, true)

  const FALLBACK_CLIENT := "Contoso Ltd."

  const LIVE_CLIENT_PATTERN := "academic therapy publications"

  /** The client selected on first render: the first demo client, or "Contoso Ltd." when there is none. */
  function InitialClient(clients: Dict<ClientData>): (name: string)
    ensures clients != [] ==> name == Keys(clients)[0]
    ensures clients == [] ==> name == FALLBACK_CLIENT
  {
    if clients != [] then clients[0].0 else FALLBACK_CLIENT
  }

  /** `DEMO_CLIENTS[name] || {}`: an unknown client has no services. */
  function BaseRecord(clients: Dict<ClientData>, name: string): (base: ClientData)
    ensures name !in Keys(clients) ==> base == NO_SERVICES
    ensures name in Keys(clients) ==> Get(clients, name) == Some(base)
  {
    Get(clients, name).GetOr(NO_SERVICES)
  }

  /** `/academic therapy publications/i.test(name)`: the phrase anywhere in the name, in any case. */
  predicate IsAcademicTherapy(name: string)
  {
    ContainsIgnoringCase(name, LIVE_CLIENT_PATTERN)
  }

  /** `{ ...processed, ...live }`: every sub-record the live object carries replaces the demo one. */
  function Spread(processed: ClientData, live: ClientData): ClientData
  {
    ClientData(
      if live.m365.Some? then live.m365 else processed.m365,
      if live.pp.Some? then live.pp else processed.pp,
      if live.duo.Some? then live.duo else processed.duo,
      if live.s1.Some? then live.s1 else processed.s1)
  }

  /** `if (!services.x) processed.x = undefined` for each service. */
  function Mask(data: ClientData, services: Toggles): ClientData
  {
    ClientData(
      if services.m365 then data.m365 else None,
      if services.pp then data.pp else None,
      if services.duo then data.duo else None,
      if services.s1 then data.s1 else None)
  }

  /** The live overlay is attempted for the matching client while M365 is switched on. */
  predicate TriesLive(selectedClient: string, services: Toggles)
  {
    IsAcademicTherapy(selectedClient) && services.m365
  }

  /** The record a refresh leaves on screen, the specification RefreshData is proved against. */
  function Refreshed(clients: Dict<ClientData>, selectedClient: string, scenario: Scenario, services: Toggles,
                     live: Result<ClientData, M365Live.LoadError>): ClientData
  {
    var demo := ScenarioOf(BaseRecord(clients, selectedClient), scenario);
    var overlaid := if TriesLive(selectedClient, services) && live.Success? then Spread(demo, live.value) else demo;
    Mask(overlaid, services)
  }

  /**
    * `refreshData`: `live` is what `loadM365LiveData` settles to; it is only looked at
    * when the overlay is attempted, and a failure leaves the demo record in place.
    */
  method RefreshData(clients: Dict<ClientData>, selectedClient: string, scenario: Scenario, services: Toggles,
                     live: Result<ClientData, M365Live.LoadError>)
    returns (processed: ClientData)
    ensures processed == Refreshed(clients, selectedClient, scenario, services, live)
    ensures !services.m365 ==> processed.m365.None?
    ensures !services.pp ==> processed.pp.None?
    ensures !services.duo ==> processed.duo.None?
    ensures !services.s1 ==> processed.s1.None?
  {
    var base := BaseRecord(clients, selectedClient);
    processed := ApplyScenario(base, scenario);
    var isATP := IsAcademicTherapy(selectedClient);
    if isATP && services.m365 {
      match live {
        case Success(data) =>
          processed := Spread(processed, data);
        case Failure(_) =>
      }
    }
    if !services.m365 {
      processed := processed.(m365 := None);
    }
    if !services.pp {
      processed := processed.(pp := None);
    }
    if !services.duo {
      processed := processed.(duo := None);
    }
    if !services.s1 {
      processed := processed.(s1 := None);
    }
  }

  /** A record as `loadM365LiveData` returns it: only the M365 sub-record. */
  predicate OnlyM365(live: Result<ClientData, M365Live.LoadError>)
  {
    live.Success? ==> live.value.pp.None? && live.value.duo.None? && live.value.s1.None?
  }

  /**
    * For a client that is not Academic Therapy Publications the live answer plays no part:
    * each switched-on service shows the scenario's record of the demo client.
    */
  lemma {:induction false} NonLiveClientShowsDemo(clients: Dict<ClientData>, selectedClient: string, scenario: Scenario, services: Toggles,
                               live: Result<ClientData, M365Live.LoadError>)
    requires !IsAcademicTherapy(selectedClient)
    ensures Refreshed(clients, selectedClient, scenario, services, live)
      == Mask(ScenarioOf(BaseRecord(clients, selectedClient), scenario), services)
  {
  }

  /** A failed live load falls back to the demo record, whatever the client. */
  lemma {:induction false} FailedLiveLoadKeepsDemo(clients: Dict<ClientData>, selectedClient: string, scenario: Scenario, services: Toggles,
                                error: M365Live.LoadError)
    ensures Refreshed(clients, selectedClient, scenario, services, Failure(error))
      == Mask(ScenarioOf(BaseRecord(clients, selectedClient), scenario), services)
  {
  }

  /**
    * With the loader's answer the overlay replaces only the M365 sub-record: Proofpoint,
    * Duo and SentinelOne come from the scenario even for Academic Therapy Publications.
    */
  lemma {:induction false} LiveOverlayReplacesOnlyM365(clients: Dict<ClientData>, selectedClient: string, scenario: Scenario,
                                    services: Toggles, m365: M365Data)
    requires TriesLive(selectedClient, services)
    ensures var demo := ScenarioOf(BaseRecord(clients, selectedClient), scenario);
      var r := Refreshed(clients, selectedClient, scenario, services, Success(ClientData(Some(m365), None, None, None)));
      && r.m365 == Some(m365)
      && r.pp == (if services.pp then demo.pp else None)
      && r.duo == (if services.duo then demo.duo else None)
      && r.s1 == (if services.s1 then demo.s1 else None)
  {
  }

  /** Even the Empty scenario shows the live M365 data once it has loaded. */
  lemma {:induction false} EmptyScenarioStillShowsLive(clients: Dict<ClientData>, selectedClient: string, services: Toggles, m365: M365Data)
    requires TriesLive(selectedClient, services)
    ensures Refreshed(clients, selectedClient, Empty, services, Success(ClientData(Some(m365), None, None, None)))
      == ClientData(Some(m365), None, None, None)
  {
  }

  /** A client missing from the demo set shows nothing unless live M365 data arrives. */
  lemma {:induction false} UnknownClientShowsNothing(clients: Dict<ClientData>, selectedClient: string, scenario: Scenario,
                                  services: Toggles, live: Result<ClientData, M365Live.LoadError>)
    requires selectedClient !in Keys(clients)
    requires !(TriesLive(selectedClient, services) && live.Success?)
    ensures Refreshed(clients, selectedClient, scenario, services, live) == NO_SERVICES
  {
    EmptyOfNoServices(scenario);
  }

  /** Every scenario turns a record without services into a record without services. */
  lemma {:induction false} EmptyOfNoServices(scenario: Scenario)
    ensures ScenarioOf(NO_SERVICES, scenario) == NO_SERVICES
  {
    AbsentStaysAbsent(NO_SERVICES, scenario);
  }

  /**
    * Unticking a box only hides that service: when the live answer carries M365 data
    * alone, the refresh under any toggles is the all-on refresh with the unticked services
    * removed.
    */
  lemma {:induction false} TogglesOnlyHide(clients: Dict<ClientData>, selectedClient: string, scenario: Scenario, services: Toggles,
                        live: Result<ClientData, M365Live.LoadError>)
    requires OnlyM365(live)
    ensures Refreshed(clients, selectedClient, scenario, services, live)
      == Mask(Refreshed(clients, selectedClient, scenario, ALL_ON, live), services)
  {
  }

  /** The capitalised client name matches the lower-case pattern; a client without the phrase does not match. */
  lemma {:induction false} LivePatternExamples()
    ensures IsAcademicTherapy("Academic Therapy Publications")
    ensures !IsAcademicTherapy("Contoso Ltd.")
  {
    var name := "Academic Therapy Publications";
    LivePatternMatchesName();
    LowerIdempotent(name);
    assert name[0..|LIVE_CLIENT_PATTERN|] == name;
    assert MatchesAt(name, LIVE_CLIENT_PATTERN, 0);
    assert |"Contoso Ltd."| < |LIVE_CLIENT_PATTERN|;
  }

  lemma {:induction false} LivePatternMatchesName()
    ensures Lower("Academic Therapy Publications") == LIVE_CLIENT_PATTERN
  {
    LivePatternMatchesFrom(0, 10);
    LivePatternMatchesFrom(10, 20);
    LivePatternMatchesFrom(20, 29);
  }

  /** Characters lo to hi of the client name lower-case to those of the pattern. */
  lemma {:induction false} LivePatternMatchesFrom(lo: nat, hi: nat)
    requires lo <= hi <= 29 && hi - lo <= 10
    ensures forall i :: lo <= i < hi ==> Lower("Academic Therapy Publications")[i] == LIVE_CLIENT_PATTERN[i]
  {
  }
}
