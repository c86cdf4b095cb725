/**
 * Entity states as the Home Assistant backend reports them, the fixed
 * allowlist, and the filter `getStates` applies to the backend's list.
 */
module Entities {
  import Strings

  /**
   * An attribute value. A number keeps the text JavaScript's `String()`
   * gives for it, so floating point is not interpreted here.
   */
  datatype Value =
    | Null
    | Bool(b: bool)
    | Number(text: string)
    | Text(s: string)
    | List(items: seq<Value>)
    | Object(fields: map<string, Value>)

  type Attributes = map<string, Value>

  datatype EntityState = EntityState(entity_id: string, state: string, attributes: Attributes)

  /** What a template literal `${v}` turns a value into. */
  function TemplateString(v: Value): string
    decreases v
  {
    match v
    case Null => "null"
    case Bool(b) => if b then "true" else "false"
    case Number(t) => t
    case Text(s) => s
    case List(items) =>
      Strings.Join(seq(|items|, i requires 0 <= i < |items| => ElementString(items[i], v)), ',')
    case Object(_) => "[object Object]"
  }

  /** Array `join` writes a `null` element as the empty string. */
  function ElementString(item: Value, ghost parent: Value): string
    requires item < parent
    decreases parent, 0
  {
    if item.Null? then "" else TemplateString(item)
  }

  /** The `${friendlyName}` of a line: an absent attribute is `undefined`. */
  function FriendlyName(attributes: Attributes): (name: string)
    ensures "friendly_name" !in attributes ==> name == "undefined"
    ensures "friendly_name" in attributes && attributes["friendly_name"].Text? ==>
      name == attributes["friendly_name"].s
  {
    if "friendly_name" in attributes then TemplateString(attributes["friendly_name"]) else "undefined"
  }

  /** `id` begins with `domain` followed by a dot. */
  predicate StartsWithDomain(id: string, domain: string) {
    |domain| < |id| && id[..|domain|] == domain && id[|domain|] == '.'
  }

  /** An entity id: the entity's domain, a dot, and its own name. */
  function EntityId(domain: string, name: string): (id: string)
    ensures StartsWithDomain(id, domain)
  {
    domain + "." + name
  }

  /**
   * The entities the assistant may see and control (`whitelistedEntities`),
   * each written as its domain and its name.
   */
  const Whitelist: seq<string> := [
    EntityId("light", "taklampa_alve_lampa"),
    EntityId("light", "hue_filament_bulb_1"),
    EntityId("switch", "innr_sp_220_brytare"),
    EntityId("light", "bordslampa_brytare"),
    EntityId("light", "hornlampa_brytare"),
    EntityId("light", "silicon_labs_ezsp_alves_lampor"),
    EntityId("sensor", "boiler_v2_pelletss_ckar"),
    EntityId("sensor", "vattentemperatur_2"),
    EntityId("sensor", "luftfuktighet"),
    EntityId("sensor", "temperatur"),
    EntityId("switch", "alves_dator"),
    EntityId("light", "hue_smart_plug_1"),
    EntityId("light", "sunricher_hk_sl_rdim_a_lampa"),
    EntityId("switch", "ender_3_s1_pro_plug_brytare_2")
  ]

  /** Every allowlist entry is a light, a switch or a sensor, by position. */
  lemma WhitelistEntryDomain(i: nat)
    requires i < |Whitelist|
    ensures var id := Whitelist[i];
      StartsWithDomain(id, "light") || StartsWithDomain(id, "switch") || StartsWithDomain(id, "sensor")
  {
    if i == 0 { } else if i == 1 { } else if i == 2 { } else if i == 3 { }
    else if i == 4 { } else if i == 5 { } else if i == 6 { } else if i == 7 { }
    else if i == 8 { } else if i == 9 { } else if i == 10 { } else if i == 11 { }
    else if i == 12 { } else { }
  }

  predicate Allowed(st: EntityState) {
    st.entity_id in Whitelist
  }

  /** `getStates`: the backend's states filtered to the allowlist. */
  function GetStates(backend: seq<EntityState>): (r: seq<EntityState>)
    ensures |r| <= |backend|
    ensures forall i :: 0 <= i < |r| ==> Allowed(r[i])
    decreases |backend|
  {
    if backend == [] then []
    else
      var rest := GetStates(backend[1..]);
      if Allowed(backend[0]) then [backend[0]] + rest else rest
  }

  /** Nothing is added and nothing allowlisted is dropped, duplicates included. */
  lemma {:induction false} GetStatesCounts(backend: seq<EntityState>, st: EntityState)
    ensures multiset(GetStates(backend))[st] == if Allowed(st) then multiset(backend)[st] else 0
    decreases |backend|
  {
    if backend != [] {
      GetStatesCounts(backend[1..], st);
      assert backend == [backend[0]] + backend[1..];
    }
  }

  /** A state is in the result exactly when the backend reported it and it is allowlisted. */
  lemma GetStatesMembership(backend: seq<EntityState>, st: EntityState)
    ensures st in GetStates(backend) <==> st in backend && Allowed(st)
  {
    GetStatesCounts(backend, st);
    assert st in GetStates(backend) <==> multiset(GetStates(backend))[st] > 0;
    assert st in backend <==> multiset(backend)[st] > 0;
  }

  /** The filter works element by element: it distributes over concatenation. */
  lemma {:induction false} GetStatesConcat(a: seq<EntityState>, b: seq<EntityState>)
    ensures GetStates(a + b) == GetStates(a) + GetStates(b)
    decreases |a|
  {
    if a != [] {
      var head := if Allowed(a[0]) then [a[0]] else [];
      assert (a + b)[0] == a[0];
      assert (a + b)[1..] == a[1..] + b;
      assert GetStates(a + b) == head + GetStates(a[1..] + b);
      assert GetStates(a) == head + GetStates(a[1..]);
      GetStatesConcat(a[1..], b);
    } else {
      assert a + b == b;
    }
  }

  /** A single state is kept exactly when it is allowlisted. */
  lemma GetStatesSingle(st: EntityState)
    ensures GetStates([st]) == if Allowed(st) then [st] else []
  {
    assert [st][1..] == [];
  }

  /** An already-allowlisted list passes through unchanged; filtering twice filters once. */
  lemma {:induction false} GetStatesKeepsAllowed(backend: seq<EntityState>)
    requires forall i :: 0 <= i < |backend| ==> Allowed(backend[i])
    ensures GetStates(backend) == backend
    decreases |backend|
  {
    if backend != [] {
      GetStatesKeepsAllowed(backend[1..]);
      assert backend == [backend[0]] + backend[1..];
    }
  }

  lemma GetStatesIdempotent(backend: seq<EntityState>)
    ensures GetStates(GetStates(backend)) == GetStates(backend)
  {
    GetStatesKeepsAllowed(GetStates(backend));
  }
}
