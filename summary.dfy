/**
 * `getStateSummary`: one line per entity under a fixed header. The
 * attribute schema of a domain (zod's `parse`) and its rendering (bun's
 * `inspect`) are one uninterpreted `Render` function, which may reject the
 * attributes as `parse` may throw.
 */
module Summary {
  import opened Wrappers
  import Strings
  import opened Entities

  /** The two domains that have an attribute schema. */
  datatype Schema = LightSchema | SensorSchema

  type Render = (Schema, Attributes) -> Result<string, string>

  /** What `type in schemas` finds for a domain. */
  datatype Lookup = Own(schema: Schema) | Inherited(key: string) | Absent

  datatype SummaryError =
    | MissingDomain(entityId: string)   // `Could not determine type for entity ...`
    | SchemaRejected(message: string)   // the error thrown by the schema's `parse`
    | NotAFunction(domain: string)      // `schema.parse` is undefined on an inherited key

  const Header := "The current home state is: \n"

  /**
   * `entity_id.split(".")[0]`: the text before the first dot, or all of it.
   * `DomainIsFirstPiece` shows that this scan is the first piece of `Split`.
   */
  function Domain(id: string): (d: string)
    ensures '.' !in d && d <= id
    ensures |d| == |id| || id[|d|] == '.'
    ensures '.' !in id ==> d == id
    ensures d == "" <==> id == "" || id[0] == '.'
  {
    if id == [] || id[0] == '.' then [] else [id[0]] + Domain(id[1..])
  }

  lemma {:induction false} DomainIsFirstPiece(id: string)
    ensures Domain(id) == Strings.Split(id, '.')[0]
  {
    if id != [] && id[0] != '.' {
      DomainIsFirstPiece(id[1..]);
    }
  }

  /** The keys `in` finds on every object literal through `Object.prototype`. */
  const PrototypeKeys: set<string> := {
    "constructor", "hasOwnProperty", "isPrototypeOf", "propertyIsEnumerable",
    "toLocaleString", "toString", "valueOf", "__proto__",
    "__defineGetter__", "__defineSetter__", "__lookupGetter__", "__lookupSetter__"
  }

  /** No `Object.prototype` key contains a dot, so each can be a domain. */
  lemma PrototypeKeysDotFree(key: string)
    requires key in PrototypeKeys
    ensures '.' !in key
  {
  }

  /** `type in schemas` as written: an inherited key is found too. */
  function InOperator(domain: string): (l: Lookup)
    ensures domain == "light" ==> l == Own(LightSchema)
    ensures domain == "sensor" ==> l == Own(SensorSchema)
    ensures l.Own? <==> domain == "light" || domain == "sensor"
    ensures l.Inherited? <==> domain in PrototypeKeys
  {
    if domain == "light" then Own(LightSchema)
    else if domain == "sensor" then Own(SensorSchema)
    else if domain in PrototypeKeys then Inherited(domain)
    else Absent
  }

  /** Own keys of `schemas` only (`Object.hasOwn(schemas, type)`). */
  function OwnKey(domain: string): (l: Lookup)
    ensures domain == "light" ==> l == Own(LightSchema)
    ensures domain == "sensor" ==> l == Own(SensorSchema)
    ensures !l.Inherited?
    ensures l.Own? <==> domain == "light" || domain == "sensor"
  {
    if domain == "light" then Own(LightSchema)
    else if domain == "sensor" then Own(SensorSchema)
    else Absent
  }

  /** `specificData`: empty unless the domain has a schema. */
  function SpecificData(st: EntityState, lookup: string -> Lookup, render: Render): Result<string, SummaryError>
  {
    var domain := Domain(st.entity_id);
    match lookup(domain)
    case Absent => Ok("")
    case Inherited(_) => Err(NotAFunction(domain))
    case Own(schema) =>
      match render(schema, st.attributes)
      case Ok(text) => Ok(text)
      case Err(m) => Err(SchemaRejected(m))
  }

  /** The text of one line given its attribute part. */
  function LineText(st: EntityState, specific: string): string {
    "\"" + FriendlyName(st.attributes) + "\" (" + st.entity_id + "): " + st.state + " " + specific
  }

  /** One line of the summary, or the error the mapping callback throws. */
  function Line(st: EntityState, lookup: string -> Lookup, render: Render): Result<string, SummaryError>
  {
    if Domain(st.entity_id) == "" then Err(MissingDomain(st.entity_id))
    else
      match SpecificData(st, lookup, render)
      case Ok(specific) => Ok(LineText(st, specific))
      case Err(e) => Err(e)
  }

  /** The first error of a list of results, or all their values in order. */
  function FirstError<T, E>(rs: seq<Result<T, E>>): (r: Result<seq<T>, E>)
    ensures r.Ok? ==> (|r.value| == |rs| && forall i :: 0 <= i < |rs| ==> rs[i] == Ok(r.value[i]))
    ensures r.Err? ==> exists k :: (0 <= k < |rs| && rs[k] == Err(r.error) &&
      forall j :: 0 <= j < k ==> rs[j].Ok?)
    decreases |rs|
  {
    if rs == [] then Ok([])
    else
      match rs[0]
      case Err(e) => Err(e)
      case Ok(first) =>
        match FirstError(rs[1..])
        case Err(e) =>
          ghost var k :| 0 <= k < |rs| - 1 && rs[1..][k] == Err(e) && forall j :: 0 <= j < k ==> rs[1..][j].Ok?;
          assert rs[k + 1] == Err(e);
          Err(e)
        case Ok(more) => Ok([first] + more)
  }

  /** `states.map(...)`: every line in order, or the first error thrown. */
  function Lines(states: seq<EntityState>, lookup: string -> Lookup, render: Render): (r: Result<seq<string>, SummaryError>)
    ensures r.Ok? ==> (|r.value| == |states| &&
      forall i :: 0 <= i < |states| ==> Line(states[i], lookup, render) == Ok(r.value[i]))
    ensures r.Err? ==> exists k :: (0 <= k < |states| && Line(states[k], lookup, render) == Err(r.error) &&
      forall j :: 0 <= j < k ==> Line(states[j], lookup, render).Ok?)
  {
    var rs := seq(|states|, i requires 0 <= i < |states| => Line(states[i], lookup, render));
    assert forall i :: 0 <= i < |states| ==> rs[i] == Line(states[i], lookup, render);
    FirstError(rs)
  }

  function Assemble(lines: Result<seq<string>, SummaryError>): Result<string, SummaryError> {
    match lines
    case Ok(ls) => Ok(Header + Strings.Join(ls, '\n'))
    case Err(e) => Err(e)
  }

  /** `getStateSummary` with the schema lookup restricted to own keys. */
  function GetStateSummary(states: seq<EntityState>, render: Render): Result<string, SummaryError> {
    Assemble(Lines(states, OwnKey, render))
  }

  /** `getStateSummary` with `type in schemas` exactly as written. */
  function GetStateSummaryAsWritten(states: seq<EntityState>, render: Render): Result<string, SummaryError> {
    Assemble(Lines(states, InOperator, render))
  }

  /**
   * The summary fails exactly when some entity has an empty domain or the
   * schema of its domain rejects its attributes; the first such entity
   * decides the error.
   */
  lemma SummaryFailsIff(states: seq<EntityState>, render: Render)
    ensures GetStateSummary(states, render).Err? <==>
      exists i :: 0 <= i < |states| && (Domain(states[i].entity_id) == "" ||
        (OwnKey(Domain(states[i].entity_id)).Own? &&
         render(OwnKey(Domain(states[i].entity_id)).schema, states[i].attributes).Err?))
    ensures GetStateSummary(states, render).Err? ==>
      exists k :: 0 <= k < |states| && Line(states[k], OwnKey, render) == Err(GetStateSummary(states, render).error) &&
        forall j :: 0 <= j < k ==> Line(states[j], OwnKey, render).Ok?
  {
    var r := Lines(states, OwnKey, render);
    if r.Ok? {
      forall i | 0 <= i < |states|
        ensures Domain(states[i].entity_id) != "" && (OwnKey(Domain(states[i].entity_id)).Own? ==>
          render(OwnKey(Domain(states[i].entity_id)).schema, states[i].attributes).Ok?)
      {
        LineOutcome(states[i], OwnKey, render);
      }
    } else {
      var k :| 0 <= k < |states| && Line(states[k], OwnKey, render) == Err(r.error);
      LineOutcome(states[k], OwnKey, render);
    }
  }

  /**
   * The summary is the header followed by the lines joined with newlines,
   * one line per entity in the given order, each made of the entity's name,
   * id, state and attribute part; the attribute part is the rendered
   * attributes for a domain with a schema and empty for one without.
   */
  lemma SummaryShape(states: seq<EntityState>, render: Render)
    requires GetStateSummary(states, render).Ok?
    ensures var r := GetStateSummary(states, render).value;
      var ls := Lines(states, OwnKey, render).value;
      |ls| == |states| && r == Header + Strings.Join(ls, '\n') &&
      forall i :: 0 <= i < |states| ==>
        var specific := SpecificData(states[i], OwnKey, render);
        var lookup := OwnKey(Domain(states[i].entity_id));
        specific.Ok? && ls[i] == LineText(states[i], specific.value) &&
        (lookup.Absent? ==> specific.value == "") &&
        (lookup.Own? ==> specific.value == render(lookup.schema, states[i].attributes).value)
  {
    var ls := Lines(states, OwnKey, render).value;
    forall i | 0 <= i < |states|
      ensures var specific := SpecificData(states[i], OwnKey, render);
        var lookup := OwnKey(Domain(states[i].entity_id));
        specific.Ok? && ls[i] == LineText(states[i], specific.value) &&
        (lookup.Absent? ==> specific.value == "") &&
        (lookup.Own? ==> specific.value == render(lookup.schema, states[i].attributes).value)
    {
      assert Line(states[i], OwnKey, render) == Ok(ls[i]);
    }
  }

  /** No entities: the header and an empty body. */
  lemma EmptySummary(render: Render)
    ensures GetStateSummary([], render) == Ok(Header)
  {
    assert Lines([], OwnKey, render) == Ok([]);
    assert Header + "" == Header;
  }

  /**
   * When no line holds a newline, the text after the header splits back into
   * exactly one line per entity.
   */
  lemma SummaryBodySplits(states: seq<EntityState>, render: Render)
    requires |states| >= 1
    requires GetStateSummary(states, render).Ok?
    requires forall i :: 0 <= i < |states| ==> '\n' !in Line(states[i], OwnKey, render).value
    ensures var r := GetStateSummary(states, render).value;
      |Header| <= |r| && r[..|Header|] == Header &&
      Strings.Split(r[|Header|..], '\n') == Lines(states, OwnKey, render).value
  {
    var ls := Lines(states, OwnKey, render).value;
    var r := Header + Strings.Join(ls, '\n');
    assert r[|Header|..] == Strings.Join(ls, '\n');
    assert forall i :: 0 <= i < |ls| ==> ls[i] == Line(states[i], OwnKey, render).value;
    Strings.SplitJoin(ls, '\n');
  }

  /** An id that starts with `p.` has domain `p`. */
  lemma {:induction false} DomainOfPrefixed(id: string, p: string)
    requires '.' !in p && StartsWithDomain(id, p)
    ensures Domain(id) == p
  {
    if p != [] {
      assert id[0] == p[0];
      assert id[1..][..|p| - 1] == p[1..];
      DomainOfPrefixed(id[1..], p[1..]);
    }
  }

  /** The domain of `p.rest` is `p`. */
  lemma DomainOf(p: string, rest: string)
    requires '.' !in p
    ensures Domain(EntityId(p, rest)) == p
  {
    DomainOfPrefixed(EntityId(p, rest), p);
  }

  /** Every allowlisted entity is a light, a switch or a sensor. */
  lemma WhitelistDomains(id: string)
    requires id in Whitelist
    ensures Domain(id) in {"light", "switch", "sensor"}
  {
    var i :| 0 <= i < |Whitelist| && Whitelist[i] == id;
    WhitelistEntryDomain(i);
    if StartsWithDomain(id, "light") {
      DomainOfPrefixed(id, "light");
    } else if StartsWithDomain(id, "switch") {
      DomainOfPrefixed(id, "switch");
    } else {
      DomainOfPrefixed(id, "sensor");
    }
  }

  /**
   * A line fails exactly when its domain is empty, when the domain's schema
   * rejects the attributes, or when the lookup finds an inherited key; a
   * domain without a schema gets an empty attribute part.
   */
  lemma LineOutcome(st: EntityState, lookup: string -> Lookup, render: Render)
    ensures var d := Domain(st.entity_id);
      Line(st, lookup, render).Err? <==>
        d == "" || lookup(d).Inherited? || (lookup(d).Own? && render(lookup(d).schema, st.attributes).Err?)
    ensures var d := Domain(st.entity_id);
      d != "" && lookup(d).Absent? ==> Line(st, lookup, render) == Ok(LineText(st, ""))
    ensures var d := Domain(st.entity_id);
      d == "" ==> Line(st, lookup, render) == Err(MissingDomain(st.entity_id))
  {
  }

  /** Two lookups that agree on every entity's domain give the same lines. */
  lemma LinesAgree(states: seq<EntityState>, l1: string -> Lookup, l2: string -> Lookup, render: Render)
    requires forall i :: 0 <= i < |states| ==> l1(Domain(states[i].entity_id)) == l2(Domain(states[i].entity_id))
    ensures Lines(states, l1, render) == Lines(states, l2, render)
  {
    var rs1 := seq(|states|, i requires 0 <= i < |states| => Line(states[i], l1, render));
    var rs2 := seq(|states|, i requires 0 <= i < |states| => Line(states[i], l2, render));
    assert rs1 == rs2;
  }

  /** The line of an allowlisted state can fail only through its schema. */
  lemma AllowedLineFailsOnlyOnSchema(st: EntityState, render: Render)
    requires Allowed(st)
    ensures Line(st, OwnKey, render).Err? ==> Line(st, OwnKey, render).error.SchemaRejected?
    ensures (forall s, a :: render(s, a).Ok?) ==> Line(st, OwnKey, render).Ok?
  {
    WhitelistDomains(st.entity_id);
    LineOutcome(st, OwnKey, render);
  }

  /**
   * The summary of the filtered backend states never fails for a missing
   * domain or an inherited key; it fails only if a schema rejects
   * attributes, so with a schema check that always accepts it succeeds.
   */
  lemma FilteredSummaryFailsOnlyOnSchema(backend: seq<EntityState>, render: Render)
    ensures var r := GetStateSummary(GetStates(backend), render);
      r.Err? ==> r.error.SchemaRejected?
    ensures (forall s, a :: render(s, a).Ok?) ==> GetStateSummary(GetStates(backend), render).Ok?
  {
    var states := GetStates(backend);
    var lines := Lines(states, OwnKey, render);
    if lines.Err? {
      var k :| 0 <= k < |states| && Line(states[k], OwnKey, render) == Err(lines.error);
      AllowedLineFailsOnlyOnSchema(states[k], render);
    }
  }

  lemma AllowlistDomainNotInherited(d: string)
    requires d in {"light", "switch", "sensor"}
    ensures InOperator(d) == OwnKey(d)
  {
    assert |d| == 5 || |d| == 6;
    assert forall k :: k in PrototypeKeys ==> |k| >= 7;
  }

  /**
   * On the filtered backend states, `type in schemas` as written and the
   * own-key lookup give the same summary: no allowlisted domain is an
   * `Object.prototype` key.
   */
  lemma AsWrittenAgreesOnAllowlist(backend: seq<EntityState>, render: Render)
    ensures GetStateSummaryAsWritten(GetStates(backend), render) == GetStateSummary(GetStates(backend), render)
  {
    var states := GetStates(backend);
    forall i | 0 <= i < |states|
      ensures InOperator(Domain(states[i].entity_id)) == OwnKey(Domain(states[i].entity_id))
    {
      WhitelistDomains(states[i].entity_id);
      AllowlistDomainNotInherited(Domain(states[i].entity_id));
    }
    LinesAgree(states, InOperator, OwnKey, render);
  }

  /**
   * As written, an entity whose domain is an inherited key such as
   * `constructor` makes the summary throw, although that domain has no
   * schema; with the own-key lookup it gets an empty attribute part.
   */
  lemma InheritedKeyThrows(key: string, name: string, state: string, attributes: Attributes, render: Render)
    requires key in PrototypeKeys
    ensures var st := EntityState(EntityId(key, name), state, attributes);
      GetStateSummaryAsWritten([st], render) == Err(NotAFunction(key)) &&
      GetStateSummary([st], render) == Ok(Header + LineText(st, ""))
  {
    var st := EntityState(EntityId(key, name), state, attributes);
    PrototypeKeysDotFree(key);
    DomainOf(key, name);
    LineOutcome(st, InOperator, render);
    LineOutcome(st, OwnKey, render);
    SingleLine(st, InOperator, render);
    SingleLine(st, OwnKey, render);
    assert Strings.Join([LineText(st, "")], '\n') == LineText(st, "");
  }

  /** The lines of a single entity: its line, or its error. */
  lemma SingleLine(st: EntityState, lookup: string -> Lookup, render: Render)
    ensures var l := Line(st, lookup, render);
      Lines([st], lookup, render) == if l.Ok? then Ok([l.value]) else Err(l.error)
  {
    var r := Lines([st], lookup, render);
    if r.Ok? {
      assert r.value == [r.value[0]];
    }
  }
}
