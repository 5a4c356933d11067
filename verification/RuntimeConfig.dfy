// The runtime configuration: validation, the bytes the host writes and what the classifier reads.
module RuntimeConfig {
  import opened Prelude
  import opened Octets
  import MapAbi
  import FlowSystem
  import FlowCapacity

  type Ip = MapAbi.Ip

  const SCHEMA: U16 := 3
  const CONFIG_LEN := 80
  const TCP: Byte := 6

  datatype SocketAddr = SocketAddr(ip: Ip, port: U16)

  datatype Listener = Listener(address: Ip, port: U16, v4Wildcard: bool, v6Wildcard: bool)

  /** Durations in nanoseconds. */
  datatype Config = Config(
    schema: U16, idleTtl: nat, logCapacity: nat, capacity: nat, grace: nat,
    v4Target: Option<SocketAddr>, v6Target: Option<SocketAddr>, listener: Listener)

  datatype Maxima = Maxima(flowIndex: nat, flowState: nat)

  datatype Verdict =
    | Valid
    | UnsupportedSchemaVersion
    | ZeroIdleTtl
    | InvalidLogCapacity
    | InvalidFlowCapacity
    | FlowIndexCapacityExceeded
    | ZeroTerminalGrace
    | DurationOverflow
    | InvalidListenerPort
    | InvalidListenerWildcard
    | PartialTarget
    | TargetFamilyMismatch
    | UnspecifiedTarget

  /** validate_target. */
  function ValidateTarget(target: Option<SocketAddr>, v4: bool): Verdict {
    if target.None? then Valid
    else if target.value.port == 0 then PartialTarget
    else if target.value.ip.V4? != v4 then TargetFamilyMismatch
    else if MapAbi.Unspecified(target.value.ip) then UnspecifiedTarget
    else Valid
  }

  predicate WildcardsMatch(l: Listener) {
    && l.v4Wildcard == (MapAbi.Unspecified(l.address) && l.address.V4?)
    && l.v6Wildcard == (MapAbi.Unspecified(l.address) && l.address.V6?)
  }

  /** validate_with_maxima. */
  function Validate(c: Config, maxima: Maxima): Verdict {
    if c.schema != SCHEMA then UnsupportedSchemaVersion
    else if c.idleTtl == 0 then ZeroIdleTtl
    else if c.logCapacity == 0 || c.logCapacity > 100_000 then InvalidLogCapacity
    else if c.capacity == 0 || c.capacity > maxima.flowState then InvalidFlowCapacity
    else if c.capacity * 3 > maxima.flowIndex then FlowIndexCapacityExceeded
    else if c.grace == 0 then ZeroTerminalGrace
    else if c.listener.port == 0 then InvalidListenerPort
    else if !WildcardsMatch(c.listener) then InvalidListenerWildcard
    else if ValidateTarget(c.v4Target, true) != Valid then ValidateTarget(c.v4Target, true)
    else if ValidateTarget(c.v6Target, false) != Valid then ValidateTarget(c.v6Target, false)
    else if c.idleTtl >= U64_LIMIT || c.grace >= U64_LIMIT then DurationOverflow
    else Valid
  }

  // ----- The bytes the host writes -----

  function TargetBytes(target: Option<SocketAddr>, v4: bool): (r: (Byte, seq<Byte>))
    ensures |r.1| == if v4 then 6 else 18
  {
    if target.Some? && target.value.ip.V4? && v4 then (1, target.value.ip.four + Be(target.value.port, 2))
    else if target.Some? && target.value.ip.V6? && !v4 then (1, target.value.ip.sixteen + Be(target.value.port, 2))
    else (0, seq(if v4 then 6 else 18, _ => 0))
  }

  function ListenerBytes(l: Listener): (r: seq<Byte>)
    ensures |r| == 20
  {
    [if l.address.V4? then 4 else 6, WildcardByte(l)]
    + ListenerAddress(l) + Be(l.port, 2)
  }

  /** set_runtime_config. */
  function Encode(c: Config): (r: seq<Byte>)
    ensures |r| == CONFIG_LEN
  {
    Be(c.schema, 2) + [TargetBytes(c.v4Target, true).0, TargetBytes(c.v6Target, false).0]
    + TargetBytes(c.v4Target, true).1 + TargetBytes(c.v6Target, false).1 + ListenerBytes(c.listener)
    + Le(c.idleTtl, 8) + Le(c.grace, 8) + Le(c.capacity, 4) + seq(12, _ => 0)
  }

  // ----- What the classifier reads -----

  datatype Target = Target(address: seq<Byte>, port: seq<Byte>)

  predicate AnySet(d: seq<Byte>) {
    exists i :: 0 <= i < |d| && d[i] != 0
  }

  /** The nonzero loop of target_for_packet. */
  method Nonzero(d: seq<Byte>) returns (r: bool)
    ensures r <==> AnySet(d)
  {
    r := false;
    var i := 0;
    while i < |d|
      invariant i <= |d|
      invariant r <==> exists j :: 0 <= j < i && d[j] != 0
    {
      if d[i] != 0 { r := true; }
      i := i + 1;
    }
  }

  function TargetSpec(v: seq<Byte>, v4: bool): Option<Target>
    requires |v| == CONFIG_LEN
  {
    if MapAbi.Be16(v[0..2]) != SCHEMA then None
    else if v4 then
      if v[2] == 1 && MapAbi.Be16(v[8..10]) != 0 && AnySet(v[4..8])
      then Some(Target(MapAbi.MAPPED_PREFIX + v[4..8], v[8..10])) else None
    else
      if v[3] == 1 && MapAbi.Be16(v[26..28]) != 0 && AnySet(v[10..26]) then Some(Target(v[10..26], v[26..28])) else None
  }

  /** target_for_packet. */
  method TargetForPacket(config: Option<seq<Byte>>, v4: bool) returns (r: Option<Target>)
    requires config.Some? ==> |config.value| == CONFIG_LEN
    ensures r == if config.Some? then TargetSpec(config.value, v4) else None
  {
    if config.None? { return None; }
    var v := config.value;
    if MapAbi.Be16(v[0..2]) != SCHEMA { return None; }
    if v4 {
      if v[2] != 1 || MapAbi.Be16(v[8..10]) == 0 { return None; }
      var any := Nonzero(v[4..8]);
      if !any { return None; }
      return Some(Target(MapAbi.MAPPED_PREFIX + v[4..8], v[8..10]));
    }
    if v[3] != 1 || MapAbi.Be16(v[26..28]) == 0 { return None; }
    var any := Nonzero(v[10..26]);
    if !any { return None; }
    return Some(Target(v[10..26], v[26..28]));
  }

  /** The endpoint of a parsed packet that faces the listener: normalised address and port bytes. */
  datatype Endpoint = Endpoint(address: Ip, protocol: Byte, port: U16)

  predicate ControlSpec(v: seq<Byte>, e: Endpoint)
    requires |v| == CONFIG_LEN
  {
    && MapAbi.Be16(v[0..2]) == SCHEMA && e.protocol == TCP && Be(e.port, 2) == v[46..48]
    && if e.address.V4?
       then v[28] == 4 && (v[29] % 2 == 1 || MapAbi.AddressBytes(e.address)[12..16] == v[30..46][12..16])
       else v[28] == 6 && (v[29] / 2 % 2 == 1 || MapAbi.AddressBytes(e.address) == v[30..46])
  }

  /** The address comparison loop of is_control_packet. */
  method SameBytes(a: seq<Byte>, b: seq<Byte>, from: nat) returns (r: bool)
    requires |a| == |b| == 16 && from <= 16
    ensures r <==> a[from..16] == b[from..16]
  {
    var i := from;
    while i < 16
      invariant from <= i <= 16
      invariant a[from..i] == b[from..i]
    {
      if a[i] != b[i] {
        assert a[from..16][i - from] != b[from..16][i - from];
        return false;
      }
      assert a[from..i + 1] == a[from..i] + [a[i]] && b[from..i + 1] == b[from..i] + [b[i]];
      i := i + 1;
    }
    return true;
  }

  /** is_control_packet. */
  method IsControlPacket(config: Option<seq<Byte>>, e: Endpoint) returns (r: bool)
    requires config.Some? ==> |config.value| == CONFIG_LEN
    ensures r <==> config.Some? && ControlSpec(config.value, e)
  {
    if config.None? { return false; }
    var v := config.value;
    if MapAbi.Be16(v[0..2]) != SCHEMA || e.protocol != TCP || Be(e.port, 2) != v[46..48] { return false; }
    if e.address.V4? {
      if v[28] != 4 { return false; }
      if v[29] % 2 == 1 { return true; }
      r := SameBytes(MapAbi.AddressBytes(e.address), v[30..46], 12);
    } else {
      if v[28] != 6 { return false; }
      if v[29] / 2 % 2 == 1 { return true; }
      r := SameBytes(MapAbi.AddressBytes(e.address), v[30..46], 0);
    }
  }

  // ----- The bytes mean the configuration -----

  lemma ConfigLayout(c: Config)
    ensures var v := Encode(c);
            && v[0..2] == Be(c.schema, 2)
            && v[2] == TargetBytes(c.v4Target, true).0 && v[3] == TargetBytes(c.v6Target, false).0
            && v[4..10] == TargetBytes(c.v4Target, true).1 && v[10..28] == TargetBytes(c.v6Target, false).1
            && v[28..48] == ListenerBytes(c.listener) && v[48..56] == Le(c.idleTtl, 8) && v[56..64] == Le(c.grace, 8)
            && v[64..68] == Le(c.capacity, 4)
  {
  }

  lemma V4TargetParts(c: Config)
    requires c.v4Target.Some? && c.v4Target.value.ip.V4?
    ensures var v := Encode(c);
            v[2] == 1 && v[4..8] == c.v4Target.value.ip.four && v[8..10] == Be(c.v4Target.value.port, 2)
  {
    ConfigLayout(c);
    var v, t := Encode(c), c.v4Target.value;
    assert v[4..10] == t.ip.four + Be(t.port, 2);
    MapAbi.SubSlice(v, 4, 6, 0, 4);
    MapAbi.SubSlice(v, 4, 6, 4, 6);
  }

  lemma V6TargetParts(c: Config)
    requires c.v6Target.Some? && c.v6Target.value.ip.V6?
    ensures var v := Encode(c);
            v[3] == 1 && v[10..26] == c.v6Target.value.ip.sixteen && v[26..28] == Be(c.v6Target.value.port, 2)
  {
    ConfigLayout(c);
    var v, t := Encode(c), c.v6Target.value;
    assert v[10..28] == t.ip.sixteen + Be(t.port, 2);
    MapAbi.SubSlice(v, 10, 18, 0, 16);
    MapAbi.SubSlice(v, 10, 18, 16, 18);
  }

  lemma SpecifiedHasBit(a: Ip)
    requires !MapAbi.Unspecified(a)
    ensures a.V4? ==> AnySet(a.four)
    ensures a.V6? ==> AnySet(a.sixteen)
  {
    if a.V4? {
      assert a.four != [0, 0, 0, 0];
    } else {
      assert a.sixteen != [0, 0, 0, 0, 0, 0, 0, 0, 0, 0, 0, 0, 0, 0, 0, 0];
    }
  }

  function Selected(target: Option<SocketAddr>): Option<Target> {
    if target.None? then None else Some(Target(MapAbi.AddressBytes(target.value.ip), Be(target.value.port, 2)))
  }

  lemma V4Selected(c: Config)
    requires ValidateTarget(c.v4Target, true) == Valid && c.schema == SCHEMA
    ensures TargetSpec(Encode(c), true) == Selected(c.v4Target)
  {
    ConfigLayout(c);
    MapAbi.Be16RoundTrip(c.schema);
    if c.v4Target.Some? {
      V4TargetParts(c);
      SpecifiedHasBit(c.v4Target.value.ip);
      MapAbi.Be16RoundTrip(c.v4Target.value.port);
    }
  }

  lemma V6Selected(c: Config)
    requires ValidateTarget(c.v6Target, false) == Valid && c.schema == SCHEMA
    ensures TargetSpec(Encode(c), false) == Selected(c.v6Target)
  {
    ConfigLayout(c);
    MapAbi.Be16RoundTrip(c.schema);
    if c.v6Target.Some? {
      V6TargetParts(c);
      SpecifiedHasBit(c.v6Target.value.ip);
      MapAbi.Be16RoundTrip(c.v6Target.value.port);
    }
  }

  /** For a validated configuration the classifier selects exactly the configured target of either family. */
  lemma TargetSelected(c: Config, maxima: Maxima)
    requires Validate(c, maxima) == Valid
    ensures TargetSpec(Encode(c), true) == Selected(c.v4Target)
    ensures TargetSpec(Encode(c), false) == Selected(c.v6Target)
  {
    V4Selected(c);
    V6Selected(c);
  }

  function ListenerAddress(l: Listener): (r: seq<Byte>)
    ensures |r| == 16
  {
    match l.address case V4(four) => seq(12, _ => 0) + four case V6(sixteen) => sixteen
  }

  function WildcardByte(l: Listener): Byte {
    (if l.v4Wildcard then 1 else 0) + (if l.v6Wildcard then 2 else 0)
  }

  lemma ListenerLayout(l: Listener)
    ensures var b := ListenerBytes(l);
            && b[0] == (if l.address.V4? then 4 else 6) && b[1] == WildcardByte(l)
            && b[2..18] == ListenerAddress(l) && b[18..20] == Be(l.port, 2)
  {
  }

  lemma ListenerParts(c: Config)
    ensures var v, l := Encode(c), c.listener;
            && v[28] == (if l.address.V4? then 4 else 6) && v[29] == WildcardByte(l)
            && v[30..46] == ListenerAddress(l) && v[46..48] == Be(l.port, 2)
  {
    ConfigLayout(c);
    ListenerLayout(c.listener);
    var v := Encode(c);
    assert v[28] == v[28..48][0] && v[29] == v[28..48][1];
    MapAbi.SubSlice(v, 28, 20, 2, 18);
    MapAbi.SubSlice(v, 28, 20, 18, 20);
  }

  lemma AddressesDecide(a: Ip, l: Listener)
    requires a.V4? == l.address.V4?
    ensures a.V4? ==> (MapAbi.AddressBytes(a)[12..16] == ListenerAddress(l)[12..16] <==> a == l.address)
    ensures a.V6? ==> (MapAbi.AddressBytes(a) == ListenerAddress(l) <==> a == l.address)
  {
    if a.V4? {
      assert MapAbi.AddressBytes(a)[12..16] == a.four;
      assert ListenerAddress(l)[12..16] == l.address.four;
    }
  }

  predicate Bypassed(l: Listener, e: Endpoint) {
    && e.protocol == TCP && e.port == l.port && e.address.V4? == l.address.V4?
    && (MapAbi.Unspecified(l.address) || e.address == l.address)
  }

  lemma BytesBypass(v: seq<Byte>, l: Listener, e: Endpoint)
    requires |v| == CONFIG_LEN && MapAbi.Be16(v[0..2]) == SCHEMA && WildcardsMatch(l)
    requires v[28] == (if l.address.V4? then 4 else 6) && v[29] == WildcardByte(l)
    requires v[30..46] == ListenerAddress(l) && v[46..48] == Be(l.port, 2)
    ensures ControlSpec(v, e) <==> Bypassed(l, e)
  {
    MapAbi.PortsDecide(e.port, l.port);
    if e.address.V4? == l.address.V4? { AddressesDecide(e.address, l); }
  }

  /** ... and bypasses exactly the TCP traffic of the configured listener. */
  lemma ListenerBypassed(c: Config, maxima: Maxima, e: Endpoint)
    requires Validate(c, maxima) == Valid
    ensures ControlSpec(Encode(c), e) <==> Bypassed(c.listener, e)
  {
    ConfigLayout(c);
    ListenerParts(c);
    MapAbi.Be16RoundTrip(c.schema);
    BytesBypass(Encode(c), c.listener, e);
  }

  /** Both durations and the capacity read back as configured. */
  lemma LimitsReadBack(c: Config, maxima: Maxima)
    requires Validate(c, maxima) == Valid && maxima.flowState < 0x1_0000_0000
    ensures MapAbi.Le64(Encode(c)[48..56]) == c.idleTtl > 0
    ensures MapAbi.Le64(Encode(c)[56..64]) == c.grace > 0
    ensures MapAbi.Le32(Encode(c)[64..68]) == c.capacity > 0
  {
    ConfigLayout(c);
    MapAbi.Le64RoundTrip(c.idleTtl);
    MapAbi.Le64RoundTrip(c.grace);
    MapAbi.Le32RoundTrip(c.capacity);
  }

  /**
   * Under an unchanged validated configuration an insertion always finds room in the state map, and in the index
   * map while three more entries for every orphaned generation would fit; none is needed without orphans.
   */
  lemma MapsNeverFill(c: Config, maxima: Maxima, run: seq<FlowSystem.System>, i: nat, p: nat)
    requires Validate(c, maxima) == Valid && FlowSystem.IsRun(run) && i < |run|
    requires forall j :: 0 <= j <= i ==> run[j].capacity == c.capacity
    requires p in run[i].threads && run[i].threads[p].Making?
    ensures run[i].threads[p].stage.InsertState? ==> |run[i].m.states| < maxima.flowState
    ensures run[i].threads[p].stage.InsertIndex? && 3 * (c.capacity + |run[i].m.orphans|) <= maxima.flowIndex ==>
              |run[i].m.index| < maxima.flowIndex
    ensures run[i].m.orphans == {} ==> 3 * (c.capacity + |run[i].m.orphans|) <= maxima.flowIndex
  {
    FlowCapacity.CapacitySafety(run, i);
  }
}
