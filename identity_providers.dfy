/**
 * The identity-providers component
 * (src/components/identityProviders/identity-providers.component.ts):
 * which identity providers are activated for an environment or for the
 * organisation, and which configuration service each action goes to.
 * Service calls are modelled as the request they send and the message
 * shown when it succeeds.
 */
module IdentityProviders {
  import opened Wrappers

  /** The binding value of `target` that selects the environment. */
  const EnvironmentTarget := "ENVIRONMENT"

  datatype IdentityProviderActivation = IdentityProviderActivation(identityProvider: string)

  /** A value the view can bind into `activatedIdps`: a boolean, or another JavaScript value of some truthiness. */
  datatype FlagValue = BoolValue(b: bool) | OtherValue(truthy: bool)

  /** One property of a JavaScript object. */
  datatype Entry = Entry(key: string, value: FlagValue)

  /** A JavaScript object with string keys: its properties in insertion order. */
  type Dict = seq<Entry>

  predicate UniqueKeys(d: Dict)
  {
    forall i, j :: 0 <= i < j < |d| ==> d[i].key != d[j].key
  }

  /** `Object.keys`. */
  function KeysOf(d: Dict): (ks: seq<string>)
    ensures |ks| == |d| && forall i :: 0 <= i < |d| ==> ks[i] == d[i].key
  {
    seq(|d|, i requires 0 <= i < |d| => d[i].key)
  }

  /** `d[k]`, with `None` for `undefined`. */
  function Get(d: Dict, k: string): (r: Option<FlagValue>)
    ensures r.None? <==> k !in KeysOf(d)
  {
    if d == [] then None
    else if d[0].key == k then Some(d[0].value)
    else Get(d[1..], k)
  }

  /** `d[k] = v`: an existing property keeps its place, a new one goes last. */
  function Put(d: Dict, k: string, v: FlagValue): (r: Dict)
    ensures |r| == if k in KeysOf(d) then |d| else |d| + 1
    ensures KeysOf(r) == if k in KeysOf(d) then KeysOf(d) else KeysOf(d) + [k]
  {
    if d == [] then [Entry(k, v)]
    else if d[0].key == k then [Entry(k, v)] + d[1..]
    else [d[0]] + Put(d[1..], k, v)
  }

  /** JavaScript truthiness of `d[k]`. */
  predicate Truthy(v: Option<FlagValue>)
  {
    match v
    case None => false
    case Some(BoolValue(b)) => b
    case Some(OtherValue(t)) => t
  }

  /** The `forEach` of `$onInit`: every listed identity provider is set to `true`, in list order. */
  function MarkActivated(d: Dict, identities: seq<IdentityProviderActivation>): (r: Dict)
    ensures |r| >= |d| && KeysOf(r)[..|d|] == KeysOf(d)
    ensures forall i :: |d| <= i < |r| ==> r[i].key in ProvidersOf(identities)
    decreases |identities|
  {
    if identities == [] then d
    else Put(MarkActivated(d, identities[..|identities| - 1]), identities[|identities| - 1].identityProvider, BoolValue(true))
  }

  /** The list `toggleActivatedIdp` sends: one activation per key whose value is `=== true`, in key order. */
  function UpdatedActivations(d: Dict): (r: seq<IdentityProviderActivation>)
    ensures |r| <= |d|
    ensures forall i :: 0 <= i < |r| ==> r[i].identityProvider in KeysOf(d)
  {
    if d == [] then []
    else (if d[0].value == BoolValue(true) then [IdentityProviderActivation(d[0].key)] else [])
         + UpdatedActivations(d[1..])
  }

  /** The identity providers named in a list of activations. */
  function ProvidersOf(identities: seq<IdentityProviderActivation>): set<string>
  {
    set i | 0 <= i < |identities| :: identities[i].identityProvider
  }

  // ---------------------------------------------------------------------
  // Properties of the dictionary

  lemma {:induction false} PutGet(d: Dict, k: string, v: FlagValue, k': string)
    ensures Get(Put(d, k, v), k') == if k' == k then Some(v) else Get(d, k')
  {
    if d != [] && d[0].key != k {
      PutGet(d[1..], k, v, k');
    }
  }

  lemma {:induction false} PutKeepsKeysUnique(d: Dict, k: string, v: FlagValue)
    requires UniqueKeys(d)
    ensures UniqueKeys(Put(d, k, v))
  {
    if d != [] && d[0].key != k {
      PutKeepsKeysUnique(d[1..], k, v);
      var r := Put(d, k, v);
      forall j | 0 < j < |r|
        ensures r[0].key != r[j].key
      {
        var rest := Put(d[1..], k, v);
        assert r[j] == rest[j - 1];
        assert rest[j - 1].key in KeysOf(rest);
        PutGet(d[1..], k, v, d[0].key);
        assert Get(d[1..], d[0].key).None? by {
          assert d[0].key !in KeysOf(d[1..]) by {
            forall i | 0 <= i < |d[1..]| ensures KeysOf(d[1..])[i] != d[0].key {
              assert d[1..][i] == d[i + 1];
            }
          }
        }
      }
    }
  }

  /** After `$onInit`'s loop, the listed providers are `true` and every other key is as before. */
  lemma {:induction false} MarkActivatedGet(d: Dict, identities: seq<IdentityProviderActivation>, k: string)
    ensures Get(MarkActivated(d, identities), k)
        == if k in ProvidersOf(identities) then Some(BoolValue(true)) else Get(d, k)
    decreases |identities|
  {
    if identities != [] {
      var init := identities[..|identities| - 1];
      var last := identities[|identities| - 1].identityProvider;
      MarkActivatedGet(d, init, k);
      PutGet(MarkActivated(d, init), last, BoolValue(true), k);
      assert ProvidersOf(identities) == ProvidersOf(init) + {last} by {
        forall p | p in ProvidersOf(identities) ensures p in ProvidersOf(init) + {last} {
          var i :| 0 <= i < |identities| && identities[i].identityProvider == p;
          if i < |identities| - 1 {
            assert init[i] == identities[i];
          }
        }
        forall p | p in ProvidersOf(init) ensures p in ProvidersOf(identities) {
          var i :| 0 <= i < |init| && init[i].identityProvider == p;
          assert identities[i] == init[i];
        }
      }
    }
  }

  lemma {:induction false} MarkActivatedKeepsKeysUnique(d: Dict, identities: seq<IdentityProviderActivation>)
    requires UniqueKeys(d)
    ensures UniqueKeys(MarkActivated(d, identities))
    decreases |identities|
  {
    if identities != [] {
      var init := identities[..|identities| - 1];
      MarkActivatedKeepsKeysUnique(d, init);
      PutKeepsKeysUnique(MarkActivated(d, init), identities[|identities| - 1].identityProvider, BoolValue(true));
    }
  }

  /** Starting from `{}`, exactly the listed providers are keys, and each maps to `true`. */
  lemma ActivatedExactlyListed(identities: seq<IdentityProviderActivation>, k: string)
    ensures Get(MarkActivated([], identities), k) == if k in ProvidersOf(identities) then Some(BoolValue(true)) else None
  {
    MarkActivatedGet([], identities, k);
  }

  /** The update list names exactly the keys whose value is `=== true`. */
  lemma {:induction false} UpdatedActivationsExact(d: Dict, k: string)
    requires UniqueKeys(d)
    ensures IdentityProviderActivation(k) in UpdatedActivations(d) <==> Get(d, k) == Some(BoolValue(true))
  {
    if d != [] {
      assert UniqueKeys(d[1..]) by {
        forall i, j | 0 <= i < j < |d[1..]| ensures d[1..][i].key != d[1..][j].key {
          assert d[1..][i] == d[i + 1] && d[1..][j] == d[j + 1];
        }
      }
      UpdatedActivationsExact(d[1..], k);
      if d[0].key == k {
        assert k !in KeysOf(d[1..]) by {
          forall i | 0 <= i < |d[1..]| ensures KeysOf(d[1..])[i] != k {
            assert d[1..][i] == d[i + 1];
          }
        }
      }
    }
  }

  /** Only keys of the object appear in the update list, in key order, so no provider appears twice. */
  lemma {:induction false} UpdatedActivationsDistinct(d: Dict)
    requires UniqueKeys(d)
    ensures forall i, j :: 0 <= i < j < |UpdatedActivations(d)| ==> UpdatedActivations(d)[i] != UpdatedActivations(d)[j]
  {
    if d != [] {
      var rest := UpdatedActivations(d[1..]);
      assert UniqueKeys(d[1..]) by {
        forall i, j | 0 <= i < j < |d[1..]| ensures d[1..][i].key != d[1..][j].key {
          assert d[1..][i] == d[i + 1] && d[1..][j] == d[j + 1];
        }
      }
      UpdatedActivationsDistinct(d[1..]);
      if d[0].value == BoolValue(true) {
        assert IdentityProviderActivation(d[0].key) !in rest by {
          UpdatedActivationsExact(d[1..], d[0].key);
          assert d[0].key !in KeysOf(d[1..]) by {
            forall i | 0 <= i < |d[1..]| ensures KeysOf(d[1..])[i] != d[0].key {
              assert d[1..][i] == d[i + 1];
            }
          }
        }
        assert UpdatedActivations(d) == [IdentityProviderActivation(d[0].key)] + rest;
      }
    }
  }

  /** Toggling right after `$onInit` sends back exactly the providers that were listed. */
  lemma InitThenUpdate(identities: seq<IdentityProviderActivation>, k: string)
    ensures IdentityProviderActivation(k) in UpdatedActivations(MarkActivated([], identities)) <==> k in ProvidersOf(identities)
  {
    MarkActivatedKeepsKeysUnique([], identities);
    UpdatedActivationsExact(MarkActivated([], identities), k);
    ActivatedExactlyListed(identities, k);
  }

  // ---------------------------------------------------------------------
  // Target dispatch

  /** Whose settings and identities the component edits. */
  datatype Scope = Environment | Organization

  datatype ConfigService = PortalConfigService | ConsoleConfigService

  function ScopeOf(target: string): (s: Scope)
    ensures s == Environment <==> target == EnvironmentTarget
  {
    if target == EnvironmentTarget then Environment else Organization
  }

  /** The configuration service of a scope: the portal's for an environment, the console's for the organisation. */
  function ConfigServiceOf(s: Scope): ConfigService
  {
    if s == Environment then PortalConfigService else ConsoleConfigService
  }

  /** The authentication settings the component edits. */
  datatype Settings = Settings(forceLoginEnabled: bool, localLoginEnabled: bool)

  datatype AuthenticationPatch = ForceLoginPatch(enabled: bool) | LocalLoginPatch(enabled: bool)

  /** A request the component sends; `writeBack` is whose constants take the reply. */
  datatype Request =
    | ConfigSave(service: ConfigService, patch: AuthenticationPatch, writeBack: Scope)
    | EnvironmentIdentitiesUpdate(environmentId: string, activations: seq<IdentityProviderActivation>)
    | OrganizationIdentitiesUpdate(activations: seq<IdentityProviderActivation>)

  class IdentityProvidersController {
    const target: string
    const targetId: string
    const identities: seq<IdentityProviderActivation>
    var settings: Option<Settings>
    var activatedIdps: Dict

    ghost predicate Valid()
      reads this
    {
      UniqueKeys(activatedIdps)
    }

    constructor (target: string, targetId: string, identities: seq<IdentityProviderActivation>)
      ensures Valid()
      ensures this.target == target && this.targetId == targetId && this.identities == identities
      ensures settings == None && activatedIdps == []
    {
      this.target, this.targetId, this.identities := target, targetId, identities;
      settings := None;
      activatedIdps := [];
    }

    /** `$onInit`: copy the settings of the target's scope and mark every listed provider as activated. */
    method OnInit(environmentSettings: Settings, organizationSettings: Settings)
      requires Valid()
      modifies this
      ensures Valid()
      ensures settings == Some(if target == EnvironmentTarget then environmentSettings else organizationSettings)
      ensures activatedIdps == MarkActivated(old(activatedIdps), identities)
    {
      if target == EnvironmentTarget {
        settings := Some(environmentSettings);
      } else {
        settings := Some(organizationSettings);
      }
      var i := 0;
      while i < |identities|
        invariant 0 <= i <= |identities|
        invariant activatedIdps == MarkActivated(old(activatedIdps), identities[..i])
        invariant settings == Some(if target == EnvironmentTarget then environmentSettings else organizationSettings)
      {
        assert identities[..i + 1][..i] == identities[..i];
        activatedIdps := Put(activatedIdps, identities[i].identityProvider, BoolValue(true));
        i := i + 1;
      }
      assert identities[..i] == identities;
      MarkActivatedKeepsKeysUnique(old(activatedIdps), identities);
    }

    /** The switch of the template writing `activatedIdps[id]`. */
    method SetActivation(id: string, v: FlagValue)
      requires Valid()
      modifies this`activatedIdps
      ensures Valid()
      ensures activatedIdps == Put(old(activatedIdps), id, v)
    {
      PutKeepsKeysUnique(activatedIdps, id, v);
      activatedIdps := Put(activatedIdps, id, v);
    }

    /** `saveForceLogin`: always the portal service, and the reply goes to the environment's constants. */
    method SaveForceLogin() returns (request: Request, message: string)
      requires settings.Some?
      ensures request == ConfigSave(PortalConfigService, ForceLoginPatch(settings.value.forceLoginEnabled), Environment)
      ensures message == "Authentication is now " + if settings.value.forceLoginEnabled then "mandatory" else "optional"
    {
      var enabled := settings.value.forceLoginEnabled;
      request := ConfigSave(PortalConfigService, ForceLoginPatch(enabled), Environment);
      message := "Authentication is now " + if enabled then "mandatory" else "optional";
    }

    /** `saveShowLoginForm`: the service and the constants of the target's scope. */
    method SaveShowLoginForm() returns (request: Request, message: string)
      requires settings.Some?
      ensures request == ConfigSave(ConfigServiceOf(ScopeOf(target)), LocalLoginPatch(settings.value.localLoginEnabled), ScopeOf(target))
      ensures request.service == PortalConfigService <==> target == EnvironmentTarget
      ensures message == "Login form is now " + if settings.value.localLoginEnabled then "enabled" else "disabled"
    {
      var enabled := settings.value.localLoginEnabled;
      if target == EnvironmentTarget {
        request := ConfigSave(PortalConfigService, LocalLoginPatch(enabled), Environment);
      } else {
        request := ConfigSave(ConsoleConfigService, LocalLoginPatch(enabled), Organization);
      }
      message := "Login form is now " + if enabled then "enabled" else "disabled";
    }

    /** `toggleActivatedIdp`: send the activated providers to the target's scope. */
    method ToggleActivatedIdp(identityProviderId: string) returns (request: Request, message: string)
      requires Valid()
      ensures target == EnvironmentTarget ==> request.EnvironmentIdentitiesUpdate? && request.environmentId == targetId
      ensures target != EnvironmentTarget ==> request.OrganizationIdentitiesUpdate?
      ensures forall k :: IdentityProviderActivation(k) in request.activations <==> Get(activatedIdps, k) == Some(BoolValue(true))
      ensures forall i, j :: 0 <= i < j < |request.activations| ==> request.activations[i] != request.activations[j]
      ensures message == identityProviderId + " is now "
                         + if Truthy(Get(activatedIdps, identityProviderId)) then "enabled" else "disabled"
    {
      var updated := UpdatedActivations(activatedIdps);
      forall k ensures IdentityProviderActivation(k) in updated <==> Get(activatedIdps, k) == Some(BoolValue(true)) {
        UpdatedActivationsExact(activatedIdps, k);
      }
      UpdatedActivationsDistinct(activatedIdps);
      if target == EnvironmentTarget {
        request := EnvironmentIdentitiesUpdate(targetId, updated);
      } else {
        request := OrganizationIdentitiesUpdate(updated);
      }
      message := identityProviderId + " is now " + if Truthy(Get(activatedIdps, identityProviderId)) then "enabled" else "disabled";
    }

    /** `isReadonlySetting`, with each service's `isReadonly` given as `isReadonly`. */
    function IsReadonlySetting(property: string, isReadonly: (ConfigService, Option<Settings>, string) -> bool): (r: bool)
      reads this
      ensures target == EnvironmentTarget ==> r == isReadonly(PortalConfigService, settings, property)
      ensures target != EnvironmentTarget ==> r == isReadonly(ConsoleConfigService, settings, property)
    {
      if target == EnvironmentTarget then isReadonly(PortalConfigService, settings, property)
      else isReadonly(ConsoleConfigService, settings, property)
    }
  }
}
