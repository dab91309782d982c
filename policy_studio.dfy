/**
 * The policy-studio controller
 * (src/management/api/design/policy-studio/policy-studio.controller.ts):
 * it hands an API's design (flows, plans, resources, properties, services)
 * to the studio widget through attributes, and copies the widget's design
 * back onto the API when the widget saves.
 */
module PolicyStudio {
  import opened Wrappers
  import opened PolicyCategories

  /** A JSON value as this controller passes it through; `Null` stands for both `null` and `undefined`. */
  datatype Value = Null | Bool(b: bool) | Num(n: int) | Str(s: string) | Arr(items: seq<Value>) | Obj(fields: map<string, Value>)

  /** The `definition` attribute of the widget, and the `definition` of its save event. */
  datatype Definition = Definition(name: Value, version: Value, flows: Value, resources: Value, plans: Value, properties: Value)

  /** What `$location.search().flows` can hold: a string, an array (repeated key), `true` (key without value) or nothing. */
  datatype QueryValue = QueryString(s: string) | QueryArray(items: seq<string>) | QueryFlag(b: bool) | QueryAbsent

  /** A widget attribute (the JSON text of each is abstracted to the value it encodes). */
  datatype Attribute =
    | DefinitionAttr(definition: Definition)
    | ValueAttr(value: Value)
    | FlowIdsAttr(ids: Option<seq<string>>)
    | PoliciesAttr(policies: seq<Policy>)
    | TextAttr(text: string)

  /** The design-related fields of an API. */
  datatype ApiFields = ApiFields(name: Value, version: Value, flows: Value, plans: Value,
                                 resources: Value, properties: Value, services: Value)

  /** The `property-providers` attribute: the one provider the console offers (its schema and documentation are not modelled). */
  const PropertyProviders: Value := Arr([Obj(map["id" := Str("HTTP"), "name" := Str("Custom (HTTP)")])])

  /** `x != null ? x : []`. */
  function OrEmpty(v: Value): (r: Value)
    ensures r != Null
    ensures v != Null ==> r == v
  {
    if v != Null then v else Arr([])
  }

  /** The definition `setApi` gives the widget. */
  function DefinitionOf(f: ApiFields): (d: Definition)
    ensures d.name == f.name && d.version == f.version
    ensures d.resources == f.resources && d.properties == f.properties
    ensures d.flows == (if f.flows == Null then Arr([]) else f.flows)
    ensures d.plans == (if f.plans == Null then Arr([]) else f.plans)
  {
    Definition(f.name, f.version, OrEmpty(f.flows), f.resources, OrEmpty(f.plans), f.properties)
  }

  /** The API's fields after `onSave` with the widget's definition and services. */
  function Saved(f: ApiFields, d: Definition, services: Value): (g: ApiFields)
    ensures g.name == f.name && g.version == f.version
  {
    f.(flows := d.flows, plans := d.plans, resources := d.resources, properties := d.properties, services := services)
  }

  /** The selection passed to the widget from the `flows` query parameter. */
  function SelectedFlows(param: QueryValue): (r: Option<seq<string>>)
    ensures r.None? <==> !param.QueryString? && !param.QueryArray?
    ensures param.QueryString? ==> r == Some([param.s])
    ensures param.QueryArray? ==> r == Some(param.items)
  {
    match param
    case QueryString(s) => Some([s])
    case QueryArray(items) => Some(items)
    case _ => None
  }

  /** How the router reads back a `flows` list it was given: no key when empty, one value, or a repeated key. */
  function FromUrl(flows: seq<string>): QueryValue
  {
    if |flows| == 0 then QueryAbsent
    else if |flows| == 1 then QueryString(flows[0])
    else QueryArray(flows)
  }

  // ---------------------------------------------------------------------
  // Properties of the data shaping

  /** The widget always gets lists for flows and plans, and the rest unchanged. */
  lemma DefinitionHasLists(f: ApiFields)
    ensures DefinitionOf(f).flows != Null && DefinitionOf(f).plans != Null
    ensures f.flows != Null && f.plans != Null ==>
              DefinitionOf(f) == Definition(f.name, f.version, f.flows, f.resources, f.plans, f.properties)
  {
  }

  /** After a save the widget is shown back exactly what it saved, under the API's own name and version. */
  lemma SaveThenLoad(f: ApiFields, d: Definition, services: Value)
    requires d.flows != Null && d.plans != Null
    ensures DefinitionOf(Saved(f, d, services)) == d.(name := f.name, version := f.version)
    ensures Saved(f, d, services).services == services
  {
  }

  /** Saving the design that was loaded, unedited, changes only null flows and plans into empty lists. */
  lemma LoadThenSave(f: ApiFields)
    ensures Saved(f, DefinitionOf(f), f.services) == f.(flows := OrEmpty(f.flows), plans := OrEmpty(f.plans))
    ensures f.flows != Null && f.plans != Null ==> Saved(f, DefinitionOf(f), f.services) == f
  {
  }

  /** A selection written to the URL and read back is the same selection (an empty one reads as none). */
  lemma SelectionRoundTrip(flows: seq<string>)
    ensures SelectedFlows(FromUrl(flows)) == (if flows == [] then None else Some(flows))
  {
    if |flows| == 1 {
      assert [flows[0]] == flows;
    }
  }

  // ---------------------------------------------------------------------
  // Objects

  /** An API object; `others` stands for every field this controller does not touch. */
  class Api {
    var name: Value
    var version: Value
    var flows: Value
    var plans: Value
    var resources: Value
    var properties: Value
    var services: Value
    var others: map<string, Value>

    constructor (f: ApiFields, others: map<string, Value>)
      ensures Fields() == f && this.others == others
    {
      name, version, flows, plans := f.name, f.version, f.flows, f.plans;
      resources, properties, services := f.resources, f.properties, f.services;
      this.others := others;
    }

    function Fields(): ApiFields
      reads this
    {
      ApiFields(name, version, flows, plans, resources, properties, services)
    }
  }

  /** The `gv-policy-studio` element, reduced to its attributes. */
  class Studio {
    var attributes: map<string, Attribute>

    constructor ()
      ensures attributes == map[]
    {
      attributes := map[];
    }

    method SetAttribute(key: string, value: Attribute)
      modifies this
      ensures attributes == old(attributes)[key := value]
    {
      attributes := attributes[key := value];
    }

    method RemoveAttribute(key: string)
      modifies this
      ensures attributes == old(attributes) - {key}
    {
      attributes := attributes - {key};
    }
  }

  class PolicyStudioController {
    var api: Api?
    const studio: Studio
    /** `resolvedPolicies.data`. */
    const policies: array<Policy>
    /** `resolvedResources.data` and `resolvedFlowSchema.data`. */
    const resourceTypes: Value
    const flowSchema: Value

    constructor (studio: Studio, policies: array<Policy>, resourceTypes: Value, flowSchema: Value)
      ensures api == null
      ensures this.studio == studio && this.policies == policies
      ensures this.resourceTypes == resourceTypes && this.flowSchema == flowSchema
    {
      api := null;
      this.studio, this.policies := studio, policies;
      this.resourceTypes, this.flowSchema := resourceTypes, flowSchema;
    }

    /** `setApi`: nothing happens for the current API; otherwise it is stored and the widget refreshed. */
    method SetApi(a: Api)
      modifies this`api, studio
      ensures api == a
      ensures old(api) == a ==> studio.attributes == old(studio.attributes)
      ensures old(api) != a ==>
                studio.attributes == old(studio.attributes)["definition" := DefinitionAttr(DefinitionOf(a.Fields()))]
                                                             ["services" := ValueAttr(a.services)] - {"dirty"}
    {
      if a != api {
        api := a;
        studio.RemoveAttribute("definition");
        studio.SetAttribute("definition", DefinitionAttr(DefinitionOf(api.Fields())));
        studio.RemoveAttribute("services");
        studio.SetAttribute("services", ValueAttr(api.services));
        studio.RemoveAttribute("dirty");
      }
    }

    /** `onSave`: the five design fields of the API take the event's values; nothing else of it changes. */
    method OnSave(definition: Definition, services: Value)
      requires api != null
      modifies api`flows, api`plans, api`resources, api`properties, api`services
      ensures api.Fields() == Saved(old(api.Fields()), definition, services)
      ensures api.others == old(api.others)
    {
      api.flows := definition.flows;
      api.plans := definition.plans;
      api.resources := definition.resources;
      api.properties := definition.properties;
      api.services := services;
    }

    /** The reply of `ApiService.update` after a save: the updated API is shown. */
    method OnSaveReply(updated: Api)
      modifies this`api, studio
      ensures api == updated
      ensures old(api) == updated ==> studio.attributes == old(studio.attributes)
      ensures old(api) != updated ==>
                studio.attributes == old(studio.attributes)["definition" := DefinitionAttr(DefinitionOf(updated.Fields()))]
                                                             ["services" := ValueAttr(updated.services)] - {"dirty"}
    {
      SetApi(updated);
    }

    /**
     * `$onInit`: sort the policy catalogue, show the parent's API, and set
     * the widget's tab, flow selection, catalogues and property providers.
     */
    method OnInit(parentApi: Api, hash: string, flowsParam: QueryValue)
      modifies this`api, studio, policies
      ensures api == parentApi
      ensures SortedByRank(policies[..])
      ensures policies.Length >= 2 ==> multiset(policies[..]) == multiset(NormaliseAll(old(policies[..])))
      ensures policies.Length < 2 ==> policies[..] == old(policies[..])
      ensures var shown := if old(api) != parentApi
                           then old(studio.attributes)["definition" := DefinitionAttr(DefinitionOf(parentApi.Fields()))]
                                                       ["services" := ValueAttr(parentApi.services)] - {"dirty"}
                           else old(studio.attributes);
              studio.attributes == shown["tab-id" := TextAttr(hash)]
                                        ["selected-flows-id" := FlowIdsAttr(SelectedFlows(flowsParam))]
                                        ["resource-types" := ValueAttr(resourceTypes)]
                                        ["policies" := PoliciesAttr(policies[..])]
                                        ["flowSettingsForm" := ValueAttr(flowSchema)]
                                        ["property-providers" := ValueAttr(PropertyProviders)]
    {
      SortPolicies(policies);
      SetApi(parentApi);
      studio.SetAttribute("tab-id", TextAttr(hash));
      var selectedFlows := SelectedFlows(flowsParam);
      studio.SetAttribute("selected-flows-id", FlowIdsAttr(selectedFlows));
      studio.SetAttribute("resource-types", ValueAttr(resourceTypes));
      studio.SetAttribute("policies", PoliciesAttr(policies[..]));
      studio.SetAttribute("flowSettingsForm", ValueAttr(flowSchema));
      studio.SetAttribute("property-providers", ValueAttr(PropertyProviders));
    }
  }
}
