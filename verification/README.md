# Operator actions of the kubeapps dashboard, as pure functions

The kubeapps dashboard drives its operator pages through Redux thunks. Each
user intent works the same way:

- it announces the intent with a pending action;
- it calls the `Operators` API client;
- it announces the result, or the error the client threw, with exactly one
  terminal action.

The intents are: probe for OLM, list or fetch operators, list or fetch
ClusterServiceVersions (CSVs), and create, list, fetch or delete custom
resources. Two of the intents are compound:

- `getResources` awaits `getCSVs`. It then lists the instances of every
  CRD the CSVs own, at the API group/version derived from each owned entry.
- `getResource` awaits `getCSV`. It then looks up an owned CRD by its exact
  name and fetches one instance. It synthesizes two errors: the CSV is
  missing, or the CRD is not owned.

The behaviour is fixed by the action test suite
`dashboard/src/actions/operators.test.tsx`, and this model follows it.

## How it is modelled

- The API client is a record of pure functions, `OperatorActions.Api`. A
  call's outcome is `Ok(value)` when the client returns and `Err(error)`
  when it throws. "The client was called with these arguments" becomes "the
  announced payload is the client's answer at exactly these arguments".
- An action's output is the sequence of Redux actions it dispatches
  (`Signals.Signal`: a tag and a payload, `NoPayload` when the action has no
  `payload` key). A thunk that another thunk awaits also yields its return
  value (`OperatorActions.Dispatched`).
- `Signals.Session` is the shape of a simple action's output: its pending
  action, then one success or failure action. `Signals.NestedSession` is the
  shape of a compound one: its pending action, the whole session of the
  awaited action, then its own terminal action.
- `Ordering` sorts by `metadata.name` and shows the sorted payload is
  determined by its input when names are distinct.
- `Crd` splits a CRD name `<plural>.<group>` at its first dot. It builds the
  `<group>/<version>` string the resource API is addressed by, and finds the
  first owned entry with a given name.
- `ActionProperties` holds the properties that relate several calls. It also
  holds every scenario of the test suite, each stated for all API clients
  that answer as the scenario's mocks do.

Modules: `Wrappers` (Option, Result), `Kube` (the cluster objects), `Crd`,
`Ordering`, `Signals`, `OperatorActions`, `ActionProperties`.

## Model

| member | source | states |
|---|---|---|
| `Signals.SessionOnePendingOneTerminal` | dashboard/src/actions/operators.test.tsx:19-227 | a simple action's output opens with its pending action, holds it exactly once, and holds exactly one of its success and failure actions |
| `Signals.NestedSessionOnePendingOneTerminal` | dashboard/src/actions/operators.test.tsx:245-260 | a compound action's output opens with its own pending action and ends with its own terminal action; its own and the awaited action's pending actions occur once each, and each has exactly one terminal action |
| `OperatorActions.CheckOLMInstalled` | dashboard/src/actions/operators.test.tsx:19-46 | `checkingOLM`, then `OLMInstalled` exactly when the probe answers true (else `OLMNotInstalled`); neither carries a payload |
| `ActionProperties.CheckOLMInstalledScenarios` | dashboard/src/actions/operators.test.tsx:20-45 | the two expected two-action sequences for a probe answering true and false |
| `OperatorActions.GetOperators` | dashboard/src/actions/operators.test.tsx:49-84 | `requestOperators`, then `receiveOperators` exactly when the client returns; its payload is sorted by name and is a permutation of what the client returned; on a throw, `errorOperators` with the thrown error |
| `Ordering.SortBy` | dashboard/src/actions/operators.test.tsx:50-67 | the result is ascending by name and holds exactly the input elements, with multiplicity |
| `Ordering.SortedPermutationUnique` | dashboard/src/actions/operators.test.tsx:55 | two ascending arrangements of the same elements with distinct names are equal, so the sorted payload is the only possible one |
| `ActionProperties.GetOperatorsPayloadIsTheSortedArrangement` | dashboard/src/actions/operators.test.tsx:50-67 | when names are distinct, the `receiveOperators` payload equals any ascending permutation of the client's list |
| `ActionProperties.GetOperatorsFooBar` | dashboard/src/actions/operators.test.tsx:50-67 | operators `[foo, bar]` are announced as `[bar, foo]` |
| `ActionProperties.GetOperatorsErrorScenario` | dashboard/src/actions/operators.test.tsx:69-84 | a throwing client gives `requestOperators`, then `errorOperators` carrying the thrown error |
| `ActionProperties.GetOperatorScenarios` | dashboard/src/actions/operators.test.tsx:87-119 | the two expected sequences for `getOperator("default", "foo")`: the operator as fetched, or the thrown error under `errorOperators` |
| `OperatorActions.GetOperator` | dashboard/src/actions/operators.test.tsx:87-119 | `requestOperator`, then `receiveOperator` with the operator unchanged and unsorted, or `errorOperators` (the list's error tag) with the thrown error |
| `OperatorActions.GetCSVs` | dashboard/src/actions/operators.test.tsx:122-157 | `requestCSVs`, then `receiveCSVs` with the CSVs sorted by name (a permutation of the client's list, also returned to the caller), or `errorCSVs` with the thrown error, which is also returned |
| `ActionProperties.GetCSVsPayloadIsTheSortedArrangement` | dashboard/src/actions/operators.test.tsx:123-140 | when names are distinct, the `receiveCSVs` payload and the returned list equal any ascending permutation of the client's list |
| `ActionProperties.GetCSVsFooBar` | dashboard/src/actions/operators.test.tsx:123-140 | CSVs `[foo, bar]` are announced as `[bar, foo]` |
| `ActionProperties.GetCSVsErrorScenario` | dashboard/src/actions/operators.test.tsx:142-157 | a throwing client gives `requestCSVs`, then `errorCSVs` carrying the thrown error |
| `ActionProperties.GetCSVScenarios` | dashboard/src/actions/operators.test.tsx:160-192 | the two expected sequences for `getCSV("default", "foo")`: the CSV as fetched, or the thrown error under `errorCSVs` |
| `OperatorActions.GetCSV` | dashboard/src/actions/operators.test.tsx:160-192 | `requestCSV`, then `receiveCSV` with the CSV unchanged (no payload when it is absent), or `errorCSVs` with the thrown error; the caller gets the CSV, or nothing |
| `OperatorActions.CreateResource` | dashboard/src/actions/operators.test.tsx:195-227 | `creatingResource`, then `resourceCreated` with what the client returned for exactly these arguments, or `errorResourceCreate` with the thrown error |
| `ActionProperties.CreateResourceScenarios` | dashboard/src/actions/operators.test.tsx:195-227 | the two expected sequences for `createResource("default", "v1", "pods", body)`: the created resource, or the thrown error under `errorResourceCreate` |
| `OperatorActions.DeleteResource` | dashboard/src/actions/operators.test.tsx:418-450 | `deletingResource`, then `resourceDeleted` without a payload exactly when the client returns, else `errorResourceDelete` with the thrown error |
| `ActionProperties.DeleteResourceScenarios` | dashboard/src/actions/operators.test.tsx:418-450 | the two expected sequences for `deleteResource("default", "foos", resource)`: `resourceDeleted` without a payload, or the thrown error under `errorResourceDelete` |
| `Crd.ParseCrdName` | dashboard/src/actions/operators.test.tsx:235 | the plural has no dot; for a name with a dot, the plural, a dot and the group rebuild the name; a name without a dot is all plural |
| `Crd.ParseCrdNameOfCrdName` | dashboard/src/actions/operators.test.tsx:235 | splitting the joined name gives back any plural without a dot and any group, so the split is the inverse of joining |
| `Crd.Resolve` | dashboard/src/actions/operators.test.tsx:232-263 | the group/version ends in `/` and then the entry's version; before it is the group, which with the plural rebuilds the CRD name; the plural has no dot |
| `ActionProperties.ResolveFooKubeapps` | dashboard/src/actions/operators.test.tsx:235-263 | the entry `foo.kubeapps.com` at `v1alpha1` is addressed as `kubeapps.com/v1alpha1` with plural `foo` |
| `Crd.FindOwned` | dashboard/src/actions/operators.test.tsx:387-415 | the result is the first owned entry whose name is exactly the requested one; it is absent exactly when no entry has that name |
| `OperatorActions.OwnedEntriesMember` | dashboard/src/actions/operators.test.tsx:232-237 | an entry is among the entries to list exactly when some CSV owns it |
| `OperatorActions.ListAllOkIffEveryCallOk` | dashboard/src/actions/operators.test.tsx:240-295 | listing succeeds exactly when every list call succeeds |
| `OperatorActions.ListAllErrorFromCall` | dashboard/src/actions/operators.test.tsx:274-291 | a failed listing carries the error one of the list calls threw |
| `OperatorActions.ListAllMembers` | dashboard/src/actions/operators.test.tsx:240-258 | an item is in a successful listing exactly when it is in the `items` of one of the individual listings |
| `OperatorActions.ListAllItemsMultiset` | dashboard/src/actions/operators.test.tsx:240-258 | a successful listing holds every item of every individual listing, as often as the listings hold it, and nothing else |
| `OperatorActions.GetResources` | dashboard/src/actions/operators.test.tsx:230-295 | a nested session of `getResources` around the very session of `getCSVs`; a failing `getCSVs` closes it with `errorCustomResource` and the same error |
| `OperatorActions.ResourcesOfListing` | dashboard/src/actions/operators.test.tsx:245-295 | the closing action is a terminal action of `getResources`, and a `getCSVs` error passes through unchanged |
| `OperatorActions.ResourcesOfCSVsOutcome` | dashboard/src/actions/operators.test.tsx:266-295 | over any listing of the same CSVs: success exactly when every owned entry's list call succeeds, and a failure carries one of those calls' errors |
| `OperatorActions.GetResourcesOutcome` | dashboard/src/actions/operators.test.tsx:245-295 | when `getCSVs` returns, `receiveCustomResources` closes the output exactly when every owned entry's list call succeeds; otherwise `errorCustomResource` carries the error of a failing call |
| `OperatorActions.GetResourcesItems` | dashboard/src/actions/operators.test.tsx:238-262 | a resource is announced exactly when it is in the `items` of the listing of some owned entry |
| `OperatorActions.GetResourcesItemsMultiset` | dashboard/src/actions/operators.test.tsx:238-262 | the announced resources are every item of, and only items of, the listings of the entries owned by the announced CSVs, with multiplicity and in any order |
| `ActionProperties.GetResourcesSingleEntry` | dashboard/src/actions/operators.test.tsx:231-295 | with one CSV owning one entry, the four expected actions, the last being the listing's `items` at that entry's coordinates, or its error |
| `ActionProperties.GetResourcesScenario` | dashboard/src/actions/operators.test.tsx:231-295 | over the CSV `foo`, the listing is taken at `("default", "kubeapps.com/v1alpha1", "foo")` and its items or error close the four expected actions |
| `ActionProperties.GetResourcesFailedCsvsIgnoresListing` | dashboard/src/actions/operators.test.tsx:230-295 | a failing `getCSVs` yields `requestCSVs`, `errorCSVs` and `errorCustomResource` with the same error, whatever the list calls would answer |
| `ActionProperties.GetResourcesOpensOnceAndClosesOnce` | dashboard/src/actions/operators.test.tsx:245-260 | `getResources` has one pending action and one terminal action, and so does the `getCSVs` it awaits |
| `OperatorActions.GetResource` | dashboard/src/actions/operators.test.tsx:298-415 | a nested session of `getResource` around the very session of `getCSV`; an absent CSV closes it with the not-found message; a present one closes it with the outcome of resolving and fetching through that CSV |
| `OperatorActions.ResourceOfCSVOutcome` | dashboard/src/actions/operators.test.tsx:325-415 | no owned entry of the exact name gives the not-owned message; otherwise the fetch happens at the first such entry's group/version and plural |
| `OperatorActions.GetResourceOutcome` | dashboard/src/actions/operators.test.tsx:299-415 | with the CSV present: the not-owned message when no entry is named `crdName`, else `receiveCustomResource` with the fetched resource or `errorCustomResource` with the thrown error |
| `ActionProperties.GetResourceSingleEntry` | dashboard/src/actions/operators.test.tsx:299-364 | with the CSV owning one entry of the requested name, the four expected actions, the last being the fetch at that entry's coordinates, or its error |
| `ActionProperties.GetResourceScenario` | dashboard/src/actions/operators.test.tsx:299-364 | over the CSV `foo`, the fetch is made at `("default", "kubeapps.com/v1alpha1", "foo", "bar")` and its result or error closes the four expected actions |
| `ActionProperties.GetResourceCsvAbsent` | dashboard/src/actions/operators.test.tsx:366-385 | an absent CSV gives `receiveCSV` with no payload, then `errorCustomResource` with `CSV <csvName> not found in <namespace>` |
| `ActionProperties.GetResourceCsvNotFoundScenario` | dashboard/src/actions/operators.test.tsx:366-385 | the message is exactly `CSV foo not found in default` |
| `ActionProperties.GetResourceCrdAbsent` | dashboard/src/actions/operators.test.tsx:387-415 | a CSV owning no entry of the requested name gives `receiveCSV` with the CSV, then `Not found a valid CRD definition for <csvName>/<crdName>` |
| `ActionProperties.GetResourceCrdNotOwnedScenario` | dashboard/src/actions/operators.test.tsx:387-415 | the message is exactly `Not found a valid CRD definition for foo/not-foo.kubeapps.com` |
| `ActionProperties.GetResourceUnresolvedIgnoresFetch` | dashboard/src/actions/operators.test.tsx:366-415 | when the CSV is absent or owns no such CRD, the output ends in an error and does not depend on the client's resource fetch at all |
| `ActionProperties.GetResourceOpensOnceAndClosesOnce` | dashboard/src/actions/operators.test.tsx:309-324 | `getResource` has one pending action and one terminal action, and so does the `getCSV` it awaits |

## Left out

- The Redux store, thunk middleware, `getType`/typesafe-actions and Jest mocks. An action is a tag with an optional payload, and the output of a thunk is the list of actions it dispatches.
- The `Operators` API client and its HTTP calls to Kubernetes. Its code is not part of this model; each call is a pure function from arguments to an outcome.
- Asynchrony. Only the order of the dispatched actions is modelled. When `getResources` lists several entries, the model assumes the first failing call in list order decides the error.
- JavaScript `Error` identity. An error is its message, passed through as a value.
- Everything an operator, CSV or resource carries besides its name is one opaque `details` string that travels unchanged.
- `isOLMInstalled` throwing. The probe is a total boolean function.
- Ordering.SortBy: names compare character by character as Dafny `char` values. JavaScript compares UTF-16 code units, so the order of names outside the Basic Multilingual Plane may differ.
- `OperatorActions.GetResources` takes only a namespace, as the test suite calls it, so there is no kind to match and no not-found failure. It lists every owned entry of every CSV and joins their `items` in list order. The test suite only pins down the one-CSV, one-entry case, so the behaviour for several CSVs or entries is an assumption.
- OperatorActions.GetResources: the model assumes a failing `getCSVs` ends the action with `errorCustomResource` carrying the same error. The test suite does not exercise this case.
- OperatorActions.GetCSVs: on a throw, the model returns `Err(error)` to an awaiting action. The test suite only shows the thunk finishing after `errorCSVs`. This return value is how the model carries the `getResources` assumption above.
- OperatorActions.GetResource: the model assumes a failing `getCSV` counts as "not found". The output is `errorCSVs`, then the not-found message. The test suite does not exercise this case.
- Crd.ParseCrdName: a CRD name without a dot is assumed to be all plural with an empty group. The test suite only uses names with a dot.
- Idempotence and isolation between calls hold trivially, because every action is a pure function of the client's answers.
