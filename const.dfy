/** The client's fixed tables: default settings, the closed set of inbound
    push-event names and the table of HTTP routes. */
module Const {
  import opened Values

  // Default settings of a client.
  const DefaultHost: string := "localhost"
  const DefaultPort: int := 4200
  const DefaultRequestTimeout: real := 10.0
  const DefaultAutoReconnect: bool := true
  const DefaultReconnectDelay: real := 5.0
  const DefaultMaxReconnectAttempts: int := 5
  const DefaultWatchdogTimeout: real := 60.0
  /** Declared beside the others; the client never reads it. */
  const DefaultFallbackWatchdogSleep: int := 10
  const DefaultUnknownEventsLog: Option<string> := None

  /** The push events the controller is known to send. */
  datatype InboundEvent =
    | Circuit | Body | Temps | Chlorinator | Pump | PumpExt | LightGroup
    | CircuitGroup | Feature | Controller | ChemController | Filter
    | VirtualCircuit | Schedule

  /** The wire name of an inbound event (the enum member's value). */
  function EventName(e: InboundEvent): string {
    match e
    case Circuit => "circuit"
    case Body => "body"
    case Temps => "temps"
    case Chlorinator => "chlorinator"
    case Pump => "pump"
    case PumpExt => "pumpExt"
    case LightGroup => "lightGroup"
    case CircuitGroup => "circuitGroup"
    case Feature => "feature"
    case Controller => "controller"
    case ChemController => "chemController"
    case Filter => "filter"
    case VirtualCircuit => "virtualCircuit"
    case Schedule => "schedule"
  }

  /** The members of the enumeration, in declaration order. */
  const AllInbound: seq<InboundEvent> :=
    [Circuit, Body, Temps, Chlorinator, Pump, PumpExt, LightGroup,
     CircuitGroup, Feature, Controller, ChemController, Filter,
     VirtualCircuit, Schedule]

  /** Every member of the enumeration is listed in `AllInbound`. */
  lemma AllInboundComplete(e: InboundEvent)
    ensures e in AllInbound
  {
    match e
    case Circuit => assert AllInbound[0] == e;
    case Body => assert AllInbound[1] == e;
    case Temps => assert AllInbound[2] == e;
    case Chlorinator => assert AllInbound[3] == e;
    case Pump => assert AllInbound[4] == e;
    case PumpExt => assert AllInbound[5] == e;
    case LightGroup => assert AllInbound[6] == e;
    case CircuitGroup => assert AllInbound[7] == e;
    case Feature => assert AllInbound[8] == e;
    case Controller => assert AllInbound[9] == e;
    case ChemController => assert AllInbound[10] == e;
    case Filter => assert AllInbound[11] == e;
    case VirtualCircuit => assert AllInbound[12] == e;
    case Schedule => assert AllInbound[13] == e;
  }

  /** The list of values the membership test is run against: it holds the
      value of every member, one entry per member. */
  function InboundNames(): (names: seq<string>)
    ensures forall e :: EventName(e) in names
    ensures |names| == |AllInbound|
  {
    var names := seq(|AllInbound|, i requires 0 <= i < |AllInbound| => EventName(AllInbound[i]));
    assert forall e :: EventName(e) in names by {
      forall e ensures EventName(e) in names {
        AllInboundComplete(e);
        var i :| 0 <= i < |AllInbound| && AllInbound[i] == e;
        assert names[i] == EventName(e);
      }
    }
    names
  }

  /** Membership of a received name in the list of inbound event values:
      an exact, case-sensitive string comparison. */
  function IsKnownEvent(name: string): (known: bool)
    ensures known <==> exists e :: EventName(e) == name
  {
    var names := InboundNames();
    if name in names then
      var i :| 0 <= i < |names| && names[i] == name;
      assert names[i] == EventName(AllInbound[i]);
      true
    else
      false
  }

  /** Every member's value is recognised. */
  lemma EveryInboundEventKnown(e: InboundEvent)
    ensures IsKnownEvent(EventName(e))
  {
  }

  /** The match is case-sensitive: "pumpext" is not "pumpExt". */
  lemma CaseSensitiveMatch()
    ensures IsKnownEvent("pumpExt")
    ensures !IsKnownEvent("pumpext")
  {
    assert EventName(PumpExt) == "pumpExt";
    forall e ensures EventName(e) != "pumpext" {
      assert "pumpext"[4] == 'e';
      assert "pumpExt"[4] == 'E';
    }
  }

  /** The enumeration's values are pairwise distinct, so a name selects at
      most one event. */
  lemma EventNamesDistinct(a: InboundEvent, b: InboundEvent)
    ensures EventName(a) == EventName(b) ==> a == b
  {
  }

  /** The HTTP routes of the controller's API. */
  datatype ApiEndpoint =
    | StateAll | StateStatus | CircuitSetState | CircuitGroupSetState
    | LightGroupSetState | FeatureSetState | ChlorinatorPoolSetpoint
    | ChlorinatorSpaSetpoint | SuperChlor | CircuitSetTheme | ConfigBody
    | HeatModes | ConfigCircuit | LightThemes | ConfigHeaters
    | ConfigChlorinator | LightCommands | LightRunCommand
    | TemperatureSetpoint | SetHeatMode | ChemControllerSetpoint
    | ConfigSchedule

  /** The route path of an endpoint (the enum member's value). */
  function EndpointPath(e: ApiEndpoint): string {
    match e
    case StateAll => "state/all"
    case StateStatus => "state/status"
    case CircuitSetState => "state/circuit/setState"
    case CircuitGroupSetState => "state/circuitGroup/setState"
    case LightGroupSetState => "state/lightGroup/setState"
    case FeatureSetState => "state/feature/setState"
    case ChlorinatorPoolSetpoint => "state/chlorinator/poolSetpoint"
    case ChlorinatorSpaSetpoint => "state/chlorinator/spaSetpoint"
    case SuperChlor => "state/chlorinator/superChlorinate"
    case CircuitSetTheme => "state/circuit/setTheme"
    case ConfigBody => "config/body"
    case HeatModes => "heatModes"
    case ConfigCircuit => "config/circuit"
    case LightThemes => "lightThemes"
    case ConfigHeaters => "config/options/heaters"
    case ConfigChlorinator => "config/chlorinator"
    case LightCommands => "lightCommands"
    case LightRunCommand => "state/light/runCommand"
    case TemperatureSetpoint => "state/body/setPoint"
    case SetHeatMode => "state/body/heatMode"
    case ChemControllerSetpoint => "state/chemController"
    case ConfigSchedule => "config/schedule"
  }

  /** The position of an endpoint in the enumeration. */
  function EndpointIndex(e: ApiEndpoint): nat {
    match e
    case StateAll => 0
    case StateStatus => 1
    case CircuitSetState => 2
    case CircuitGroupSetState => 3
    case LightGroupSetState => 4
    case FeatureSetState => 5
    case ChlorinatorPoolSetpoint => 6
    case ChlorinatorSpaSetpoint => 7
    case SuperChlor => 8
    case CircuitSetTheme => 9
    case ConfigBody => 10
    case HeatModes => 11
    case ConfigCircuit => 12
    case LightThemes => 13
    case ConfigHeaters => 14
    case ConfigChlorinator => 15
    case LightCommands => 16
    case LightRunCommand => 17
    case TemperatureSetpoint => 18
    case SetHeatMode => 19
    case ChemControllerSetpoint => 20
    case ConfigSchedule => 21
  }

  // Distinctness of the 22 route paths. One lemma over all pairs is costly
  // for the solver, so the pairs are split by `EndpointIndex` into halves of
  // the enumeration, each pair of halves proved by a lemma of its own.
  lemma EndpointPathsDistinctLowLow(a: ApiEndpoint, b: ApiEndpoint)
    requires EndpointIndex(a) < 11 && EndpointIndex(b) < 11
    ensures EndpointPath(a) == EndpointPath(b) ==> a == b
  {
  }

  lemma EndpointPathsDistinctLowHigh(a: ApiEndpoint, b: ApiEndpoint)
    requires EndpointIndex(a) < 11 <= EndpointIndex(b)
    ensures EndpointPath(a) != EndpointPath(b)
  {
  }

  lemma EndpointPathsDistinctHighHigh(a: ApiEndpoint, b: ApiEndpoint)
    requires 11 <= EndpointIndex(a) && 11 <= EndpointIndex(b)
    ensures EndpointPath(a) == EndpointPath(b) ==> a == b
  {
  }

  /** The route paths are pairwise distinct. */
  lemma EndpointPathsDistinct(a: ApiEndpoint, b: ApiEndpoint)
    ensures EndpointPath(a) == EndpointPath(b) ==> a == b
  {
    if EndpointIndex(a) < 11 && EndpointIndex(b) < 11 {
      EndpointPathsDistinctLowLow(a, b);
    } else if EndpointIndex(a) < 11 {
      EndpointPathsDistinctLowHigh(a, b);
    } else if EndpointIndex(b) < 11 {
      EndpointPathsDistinctLowHigh(b, a);
    } else {
      EndpointPathsDistinctHighHigh(a, b);
    }
  }
}
