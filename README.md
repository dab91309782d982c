# Gravitee management console: navigation guards, policy studio and identity providers

This project models three pieces of deterministic logic in the Gravitee.io API management web console and proves properties about them in Dafny.

- **Navigation guards** (`NavigationGuard`, `navigation_guard.dfy`). The run block registers three router hooks:
  - onStart sends a user to `login` when login is forced and the user is not authenticated. It sends a first-time user to `confirmProfile`. A set of exempt states is never guarded.
  - onBefore checks the version of the target API definition and redirects when it does not match.
  - onFinish hides the reCAPTCHA badge. It then blocks the registration flow when user creation is disabled, and sends users who lack a state's permissions away.

  Each rule is a pure decision: `Continue` or `Redirect(target, params)`. The session, the permission check, the `profileConfirmed` marker and `ApiService.get` are inputs. The badge is a small object whose `hideBadgeCalls` counter onFinish increments.
- **Policy catalogue ordering** (`PolicyCategories`, `policy_categories.dfy`). This is the comparator the policy studio uses to sort the policy catalogue, and the in-place array sort that calls it. The comparator writes `'others'` into any policy whose category is null.
- **Policy studio controller** (`PolicyStudio`, `policy_studio.dfy`). It models these operations:
  - normalising the `flows` query parameter;
  - `setApi`, which builds the widget's `definition` with defaults and refreshes only when the API object has changed;
  - `onSave`, which copies the widget's definition back onto the API;
  - `$onInit`.

  The API is a class whose fields are updated in place. The widget is an object holding a map of attributes.
- **Identity providers** (`IdentityProviders`, `identity_providers.dfy`). It models the following:
  - the `activatedIdps` object, kept as its properties in insertion order;
  - the list of activations `toggleActivatedIdp` sends;
  - the choice between environment and organisation for the settings, the saves and the read-only check.

  Each service call is modelled as the request it sends and the message shown when it succeeds.

## Notes on the code

- onFinish's user-creation rule reads as if it applied to transitions from `registration` or `confirm`. The code compares `fromState === 'confirm'`, which tests the state object against a string, so it is never true. Only `registration` triggers the rule. `NotEligibleForUserCreation` models the test as written, and `NavigationGuard.ConfirmNeverBlocked` states the consequence.
- The permission rule relies on `UserService.isUserHasPermissions(only)`, whose semantics belong to another service. It is the uninterpreted `hasPermissions`. An empty `only` list is still present (an empty array is truthy), so `hasPermissions([])` is consulted.
- A failed fetch in onBefore is not caught by the hook, so the router receives the rejection. The model yields `CheckRejected`.

## Model

| member | source | states |
|---|---|---|
| `NavigationGuard.OnStartHook` | src/management/management.run.ts:27-36 | the hook body redirects to `login` exactly when login is forced and the user is anonymous; otherwise it redirects to `confirmProfile` exactly on an authenticated first login without the marker; redirects carry no parameters |
| `NavigationGuard.OnStart` | src/management/management.run.ts:24-36 | exempt states (`login`, `registration`, `confirm`, `confirmProfile`, `resetPassword`) always continue; any redirect is to `login` or `confirmProfile`, with no parameters |
| `NavigationGuard.ForceLoginRedirects` | src/management/management.run.ts:28-32 | for a non-exempt target, onStart redirects to `login` exactly when forced login is on and the user is not authenticated |
| `NavigationGuard.FirstLoginRedirects` | src/management/management.run.ts:33-35 | for a non-exempt target, onStart redirects to `confirmProfile` exactly when the user is authenticated, on a first login, and the `profileConfirmed` marker is absent or empty |
| `NavigationGuard.OnStartOtherwiseContinues` | src/management/management.run.ts:24-36 | onStart continues exactly when the target is exempt, or neither redirect rule applies |
| `NavigationGuard.OnStartIdempotent` | src/management/management.run.ts:24-27 | a state onStart redirects to is exempt, so a second onStart on it never redirects |
| `NavigationGuard.OnBefore` | src/management/management.run.ts:38-50 | without `apiDefinition` nothing is checked; otherwise the API named by the `apiId` parameter is fetched, a redirect carries the transition's parameters unchanged, and the outcome is a rejection exactly when that fetch fails |
| `NavigationGuard.VersionMismatchRedirects` | src/management/management.run.ts:39-47 | after a successful fetch, onBefore redirects to `apiDefinition.redirect` exactly when `gravitee` is non-null and differs from `apiDefinition.version`; when it is null or equal it continues |
| `NavigationGuard.NotEligibleForUserCreation` | src/management/management.run.ts:60 | the test holds exactly when user creation is disabled and the from-state is `registration`; it never holds when leaving `confirm` |
| `NavigationGuard.FinishDecision` | src/management/management.run.ts:57-66 | onFinish redirects exactly when the user-creation rule holds or the required permissions are lacking; redirects go to `login` or `management.apis.list` (the latter only for an authenticated user) with no parameters; the cases are spelled out by `RegistrationBlockedFirst`, `MissingPermissionsRedirect`, `LackingPermissionsNeverCommit` and `NoPermsNoRedirect` |
| `NavigationGuard.RequiredPerms` | src/management/management.run.ts:64 | the permission list is present exactly when `data`, `data.perms` and `data.perms.only` are all present, and it is then `data.perms.only` itself |
| `NavigationGuard.ReCaptchaService.HideBadge` | src/management/management.run.ts:55 | each call hides the badge once more |
| `NavigationGuard.OnFinish` | src/management/management.run.ts:52-67 | hides the badge exactly once, whatever the decision, and returns the onFinish routing decision |
| `NavigationGuard.HideBadgeOncePerFinish` | src/management/management.run.ts:52-55 | any two finished transitions, with any sessions and states, hide the badge exactly twice, whatever each of them decides |
| `NavigationGuard.RegistrationBlockedFirst` | src/management/management.run.ts:60-63 | with user creation disabled, leaving `registration` redirects to `login` before any permission check |
| `NavigationGuard.ConfirmNeverBlocked` | src/management/management.run.ts:60 | leaving `confirm` never triggers the user-creation rule, because the object-to-string comparison never holds |
| `NavigationGuard.MissingPermissionsRedirect` | src/management/management.run.ts:64-66 | otherwise, lacking `data.perms.only` redirects to `management.apis.list` for an authenticated user and to `login` for an anonymous one; in all other cases the transition continues |
| `NavigationGuard.LackingPermissionsNeverCommit` | src/management/management.run.ts:62-66 | a state whose required permissions the user lacks is never entered unmodified |
| `NavigationGuard.NoPermsNoRedirect` | src/management/management.run.ts:64 | a missing `data`, `perms` or `only` imposes no permission redirect |
| `NavigationGuard.AuditWithoutPermission` | src/management/management.route.ts:202-218 | for the audit state (`environment-audit-r`), a user lacking the permission goes to the API list when authenticated, or to `login` otherwise |
| `PolicyCategories.IndexOf` | src/management/api/design/policy-studio/policy-studio.controller.ts:87-91 | `indexOf`: -1 exactly when the category is absent; otherwise the first position holding it |
| `PolicyCategories.Normalise` | src/management/api/design/policy-studio/policy-studio.controller.ts:78-83 | a null category becomes `'others'`; a policy that has a category is unchanged |
| `PolicyCategories.CompareCategories` | src/management/api/design/policy-studio/policy-studio.controller.ts:84-95 | the comparator returns -1, 0 or 1 |
| `PolicyCategories.Rank` | src/management/api/design/policy-studio/policy-studio.controller.ts:87-95 | a category's place in the order (its index in `CATEGORY_POLICY`, or 4 for an unknown category) is at most 4 |
| `PolicyCategories.CompareEqualIsZero` | src/management/api/design/policy-studio/policy-studio.controller.ts:84-86 | the comparator returns 0 exactly for equal categories |
| `PolicyCategories.KnownCategoriesByIndex` | src/management/api/design/policy-studio/policy-studio.controller.ts:87-95 | two different known categories compare by their index in `['security','performance','transformation','others']`, antisymmetrically |
| `PolicyCategories.UnknownSortsLast` | src/management/api/design/policy-studio/policy-studio.controller.ts:87-94 | an unknown category compares after any different category, and a known category compares before it |
| `PolicyCategories.AntisymmetricUnlessBothUnknown` | src/management/api/design/policy-studio/policy-studio.controller.ts:84-95 | compare(a,b) = -compare(b,a) exactly when a = b or one of them is known |
| `PolicyCategories.NotAntisymmetric` | src/management/api/design/policy-studio/policy-studio.controller.ts:87-90 | any two different unknown categories each compare as 1 against the other |
| `PolicyCategories.NotAntisymmetricExample` | src/management/api/design/policy-studio/policy-studio.controller.ts:87-90 | for instance `'mediation'` and `'custom'` each compare after the other |
| `PolicyCategories.CompareAgreesWithRank` | src/management/api/design/policy-studio/policy-studio.controller.ts:84-95 | a negative result means a strictly lower rank, zero means an equal rank, and a positive result means a rank at least as high |
| `PolicyCategories.CompareAt` | src/management/api/design/policy-studio/policy-studio.controller.ts:77-96 | one comparator call writes `'others'` into the null categories of the two policies it compares, in the array, and compares the results |
| `PolicyCategories.InsertAt` | src/management/api/design/policy-studio/policy-studio.controller.ts:77-96 | one insertion step keeps the prefix in rank order and the array a permutation modulo normalisation |
| `PolicyCategories.SortPolicies` | src/management/api/design/policy-studio/policy-studio.controller.ts:77-96 | after the sort the array is in category-rank order; with two or more policies every category is set, and the array is a permutation of the input with null categories replaced by `'others'`; with fewer than two policies the comparator never runs and nothing changes |
| `PolicyStudio.OrEmpty` | src/management/api/design/policy-studio/policy-studio.controller.ts:131-133 | `x != null ? x : []` is never null and keeps any non-null value |
| `PolicyStudio.DefinitionOf` | src/management/api/design/policy-studio/policy-studio.controller.ts:128-135 | the widget's definition copies name, version, resources and properties, and defaults null flows and plans to `[]` |
| `PolicyStudio.Saved` | src/management/api/design/policy-studio/policy-studio.controller.ts:171-176 | a save never changes the API's name or version |
| `PolicyStudio.SelectedFlows` | src/management/api/design/policy-studio/policy-studio.controller.ts:104-110 | a string becomes a one-element list, an array is kept, and anything else becomes null |
| `PolicyStudio.DefinitionHasLists` | src/management/api/design/policy-studio/policy-studio.controller.ts:128-135 | the widget always gets lists for flows and plans; when the API has both, the definition is exactly its fields |
| `PolicyStudio.SaveThenLoad` | src/management/api/design/policy-studio/policy-studio.controller.ts:171-179 | refreshing after a save shows the widget exactly the flows, plans, resources and properties it saved, under the API's own name and version |
| `PolicyStudio.LoadThenSave` | src/management/api/design/policy-studio/policy-studio.controller.ts:171-176 | saving the loaded definition unedited changes only null flows and plans into `[]` |
| `PolicyStudio.SelectionRoundTrip` | src/management/api/design/policy-studio/policy-studio.controller.ts:104-110 | a flow selection written to the URL and read back, as one value or as a repeated key, is the same selection |
| `PolicyStudio.PolicyStudioController.constructor` | src/management/api/design/policy-studio/policy-studio.controller.ts:26-40 | a fresh controller holds no API yet |
| `PolicyStudio.PolicyStudioController.SetApi` | src/management/api/design/policy-studio/policy-studio.controller.ts:123-141 | nothing changes for the current API object; otherwise the API is stored, `definition` and `services` are replaced, `dirty` is removed, and no other attribute changes |
| `PolicyStudio.PolicyStudioController.OnSave` | src/management/api/design/policy-studio/policy-studio.controller.ts:171-176 | exactly `flows`, `plans`, `resources`, `properties` and `services` take the event's values; no other API field changes |
| `PolicyStudio.PolicyStudioController.OnSaveReply` | src/management/api/design/policy-studio/policy-studio.controller.ts:177-181 | the updated API from the server is stored; nothing changes if it is the current object; otherwise `definition` and `services` are replaced, `dirty` is removed, and no other attribute changes |
| `PolicyStudio.PolicyStudioController.OnInit` | src/management/api/design/policy-studio/policy-studio.controller.ts:42-121 | sorts the catalogue, shows the parent's API, and sets the tab, the flow selection, the catalogues and the property providers |
| `IdentityProviders.KeysOf` | src/components/identityProviders/identity-providers.component.ts:137 | `Object.keys` lists the properties in order |
| `IdentityProviders.Get` | src/components/identityProviders/identity-providers.component.ts:137 | a lookup is undefined exactly for a key that is absent |
| `IdentityProviders.Put` | src/components/identityProviders/identity-providers.component.ts:60 | an assignment adds a property only when the key is new, and then last; an existing key keeps its place |
| `IdentityProviders.MarkActivated` | src/components/identityProviders/identity-providers.component.ts:60 | the `forEach` keeps the existing keys in place and adds only listed providers after them; its values are given by `MarkActivatedGet` and `ActivatedExactlyListed` |
| `IdentityProviders.UpdatedActivations` | src/components/identityProviders/identity-providers.component.ts:136-138 | the filter/map sends at most one activation per key and names only keys of the object; exactly which ones is `UpdatedActivationsExact`, and that none repeats is `UpdatedActivationsDistinct` |
| `IdentityProviders.PutGet` | src/components/identityProviders/identity-providers.component.ts:60 | after `d[k] = v`, key k reads v and every other key reads as before |
| `IdentityProviders.PutKeepsKeysUnique` | src/components/identityProviders/identity-providers.component.ts:60 | an assignment never creates a duplicate key |
| `IdentityProviders.MarkActivatedGet` | src/components/identityProviders/identity-providers.component.ts:60 | after the `forEach`, every listed provider maps to `true` and every other key is unchanged |
| `IdentityProviders.MarkActivatedKeepsKeysUnique` | src/components/identityProviders/identity-providers.component.ts:60 | the `forEach` keeps keys unique |
| `IdentityProviders.ActivatedExactlyListed` | src/components/identityProviders/identity-providers.component.ts:49-60 | starting from `{}`, the keys are exactly the listed providers, each mapped to `true` |
| `IdentityProviders.UpdatedActivationsExact` | src/components/identityProviders/identity-providers.component.ts:136-138 | the update list names a provider exactly when its value is `=== true`; false and other values are excluded |
| `IdentityProviders.UpdatedActivationsDistinct` | src/components/identityProviders/identity-providers.component.ts:136-138 | the update list names no provider twice |
| `IdentityProviders.InitThenUpdate` | src/components/identityProviders/identity-providers.component.ts:53-61 | a toggle right after `$onInit` sends back exactly the providers that were listed |
| `IdentityProviders.ScopeOf` | src/components/identityProviders/identity-providers.component.ts:54 | the environment scope is chosen exactly for target `'ENVIRONMENT'` |
| `IdentityProviders.IdentityProvidersController.constructor` | src/components/identityProviders/identity-providers.component.ts:47-49 | `activatedIdps` starts as `{}` and the settings are not yet set |
| `IdentityProviders.IdentityProvidersController.OnInit` | src/components/identityProviders/identity-providers.component.ts:53-61 | the settings are the environment's for `'ENVIRONMENT'` and the organisation's otherwise; every listed provider is marked `true` |
| `IdentityProviders.IdentityProvidersController.SetActivation` | src/components/identityProviders/identity-providers.component.ts:142 | the template's switch writes `activatedIdps[id]`, the value the toggle then reads, and keys stay unique |
| `IdentityProviders.IdentityProvidersController.SaveForceLogin` | src/components/identityProviders/identity-providers.component.ts:96-107 | always saves through the portal service and writes the reply to the environment's constants, whatever the target; the message says mandatory or optional |
| `IdentityProviders.IdentityProvidersController.SaveShowLoginForm` | src/components/identityProviders/identity-providers.component.ts:109-133 | saves through the portal service and environment constants exactly for `'ENVIRONMENT'`, and through the console service and organisation constants otherwise |
| `IdentityProviders.IdentityProvidersController.ToggleActivatedIdp` | src/components/identityProviders/identity-providers.component.ts:135-149 | sends the environment update with `targetId` for `'ENVIRONMENT'` and the organisation update otherwise; the list holds exactly the `=== true` keys, each once; the message says enabled or disabled by the truthiness of that provider's value |
| `IdentityProviders.IdentityProvidersController.IsReadonlySetting` | src/components/identityProviders/identity-providers.component.ts:151-157 | asks the portal service for `'ENVIRONMENT'` and the console service otherwise |

## Left out

- The rest of the run block (logout listener, pending-request watcher, loader `$timeout`, window focus and blur). It only sets UI state.
- The routing framework: registration of the hooks, transition superseding and concurrency, and how a hook's return value is applied. The hooks are modelled as decisions. A redirect built without parameters is modelled with an empty map.
- `UserService.isUserHasPermissions`. It belongs to another service and is an uninterpreted predicate.
- `isAuthenticated()` is called twice in onStart. It is treated as a single boolean, because it is a query.
- The route table `src/management/management.route.ts`. It is declarative, and its resolvers are REST calls. One of its states (`management.audit`) is sample data for the permission rule.
- The JSON text of widget attributes (`JSON.stringify`). Each attribute is kept as the value it encodes.
- The remove-then-set "force refresh" in `setApi` is modelled by its net effect on the attributes.
- The schema and documentation text of the `HTTP` property provider are left out. Only its id and name are kept.
- Event-listener registration in `$onInit`, and the handlers `onChangeTab`, `onSelectFlows`, `fetchPolicyDocumentation` and `fetchResourceDocumentation`. They forward to `$location`, `$digest` and the documentation services. The reply of the `ApiService.get` in `$onInit` is the same `SetApi` call.
- `$scope.$broadcast` and the notification after a save.
- Policies are values in the array. When the comparator writes the category back into an element, that is an array update. The same policy object appearing twice in the array (aliasing) is not modelled.
- The browser's sort algorithm is implementation-defined, and this comparator is not consistent. The model uses an insertion sort that calls the comparator on neighbours. The properties proved (rank order, permutation, normalisation) hold for that algorithm.
- `activatedIdps` keeps its properties in insertion order. JavaScript lists integer-like keys first in ascending order, and that reordering is not modelled.
- `toggleActivatedIdp`, `saveForceLogin` and `saveShowLoginForm` build their success message from `activatedIdps` or `settings` when the reply arrives. The model reads those values when the call is made.
- The service replies written back into `Constants` (`response.data.authentication...`). The model records only whose constants receive them (`writeBack`).
- Creating and deleting identity providers. Both are a `$state.go` or a confirmation dialog followed by a REST call.
- `cloneDeep` is implied: the settings are values, so later edits never alias the platform constants.
- The view's switch that writes `activatedIdps[id]` lives in the template, identity-providers.html, which is not part of this model. `IdentityProvidersController.SetActivation` stands for it.
