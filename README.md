# Metric-alert conditions form and relay key registration, in Dafny

This project models the little logic inside two settings views of Sentry's
web front end.

The first is the metric-alert "rule conditions" form
(`ruleConditionsForm.tsx`). It does four things:

- It builds the catalog of selectable metrics from the aggregate-function
  registry and the event-field registry. When the organization lacks the
  `transaction-events` feature, it first drops the tracing-only names. Each
  entry is keyed `function:<name>` or `field:<name>`. A function's label is
  `name(…)` or `name()`, and a field's label is its bare name.
- It loads the project's visible environments once. A failed load leaves
  `environments` at `null` and sends one error notice.
- It offers the environments in the selector behind a leading `null`
  "All Environments" choice. The selector is disabled while `disabled` holds
  or no environments are loaded.
- It gives the aggregate editor 3 grid columns when the aggregate is a
  function call whose third argument is defined, and 2 otherwise.

The second view is the "Register Key" modal (`organizationRelay/modals/add`).
Its save payload is the saved trusted relays followed by the relay being
entered.

Files:

- `wrappers.dfy`: module `Wrappers`, an `Option` type for an absent value.
  `None` is `null` for `state.environments` and an environment choice's
  key, and `undefined` for the third slot of a function aggregate.
- `field_catalog.dfy`: module `FieldCatalog`, the catalog's reference
  definition and its properties. `IsFieldOptions` is the catalog
  predicate. `FunctionOptionsOf` and `FieldOptionsOf` are the two `forEach`
  loops written as folds. The lemmas cover key disjointness and injectivity,
  size, the tracing filter, label format and determinism.
- `rule_conditions_form.dfy`: module `IncidentRules`. The class
  `RuleConditionsForm` has the props `features` and `disabled` as constants
  and the state `environments` as a field. A `notices` field logs what was
  sent to the error notifier. The module also holds the imperative
  `GenerateFieldOptions`, with its two loops proved against the folds,
  `FetchData`, `EnvironmentList`, `GridColumns`, and two client scenarios.
- `relay_add.dfy`: module `OrganizationRelay`, `GetData`.

Inputs the source takes from modules outside this model become parameters:

- `AGGREGATIONS` is a map from name to parameter list. Only `.parameters`
  is read, and each parameter is an opaque `P`.
- `FIELDS` is a map from name to data type, an opaque `D`.
- `Object.keys` of each registry is a sequence whose elements are exactly
  the map's keys.
- `TRACING_FIELDS` is a sequence of names.
- `organization.features` is a sequence of feature names.

The environments request's outcome is a `FetchOutcome` input.
`getDisplayName(env)` and the "All Environments" node are the symbolic
labels `DisplayName(env)` and `AllEnvironments`.

The form has no loading or failed state of its own. A failed request only
sends a notice and leaves `environments` as it was. Nothing stops a late
completion from updating a form that has been unmounted.

## Model

| member | source | states |
|---|---|---|
| FieldCatalog.StripTracing | src/sentry/static/sentry/app/views/settings/incidentRules/ruleConditionsForm.tsx:73-74 | the filtered list holds exactly the names of the input that are not tracing-only, and is no longer than the input |
| FieldCatalog.OfferedListExact | src/sentry/static/sentry/app/views/settings/incidentRules/ruleConditionsForm.tsx:68-75 | the names kept from `Object.keys` are exactly the registry names that are offered: all of them with `transaction-events`, the non-tracing ones without |
| FieldCatalog.KeysDisjoint | src/sentry/static/sentry/app/views/settings/incidentRules/ruleConditionsForm.tsx:78-97 | no `function:` key equals any `field:` key, whatever the two names |
| FieldCatalog.FunctionKeyInjective | src/sentry/static/sentry/app/views/settings/incidentRules/ruleConditionsForm.tsx:84 | two function keys are equal exactly when the function names are |
| FieldCatalog.FieldKeyInjective | src/sentry/static/sentry/app/views/settings/incidentRules/ruleConditionsForm.tsx:97 | two field keys are equal exactly when the field names are |
| FieldCatalog.FunctionKeysSize | src/sentry/static/sentry/app/views/settings/incidentRules/ruleConditionsForm.tsx:82-84 | prefixing a set of names with `function:` loses none of them: as many keys as names |
| FieldCatalog.FieldKeysSize | src/sentry/static/sentry/app/views/settings/incidentRules/ruleConditionsForm.tsx:96-97 | prefixing a set of names with `field:` loses none of them: as many keys as names |
| FieldCatalog.FunctionOptionsOfStep | src/sentry/static/sentry/app/views/settings/incidentRules/ruleConditionsForm.tsx:82-94 | one turn of the function loop, with the key `function:`+name and label name+`(`+ellipsis+`)` built as the loop builds them, extends the function fold by that name |
| FieldCatalog.FieldOptionsOfStep | src/sentry/static/sentry/app/views/settings/incidentRules/ruleConditionsForm.tsx:96-107 | one turn of the field loop, with the key `field:`+name, extends the field fold by that name |
| FieldCatalog.FunctionOptionsOfHolds | src/sentry/static/sentry/app/views/settings/incidentRules/ruleConditionsForm.tsx:82-94 | after the function loop over a list of names, the keys are exactly those names prefixed `function:`, each holding that function's option |
| FieldCatalog.FieldOptionsOfHolds | src/sentry/static/sentry/app/views/settings/incidentRules/ruleConditionsForm.tsx:96-107 | the field loop adds exactly the listed names prefixed `field:`, each holding that field's option, and leaves every function entry as it was |
| FieldCatalog.AddFunctionHolds | src/sentry/static/sentry/app/views/settings/incidentRules/ruleConditionsForm.tsx:84-93 | storing one function's option keeps the dictionary exact for the names seen so far plus that one |
| FieldCatalog.AddFieldHolds | src/sentry/static/sentry/app/views/settings/incidentRules/ruleConditionsForm.tsx:97-106 | storing one field's option overwrites no function entry and keeps the field entries exact for one more name |
| FieldCatalog.FilledIsFieldOptions | src/sentry/static/sentry/app/views/settings/incidentRules/ruleConditionsForm.tsx:65-110 | every name kept from `Object.keys` is a registry entry, and running both loops over the filtered lists yields the catalog of the registries |
| FieldCatalog.FunctionLabelFormat | src/sentry/static/sentry/app/views/settings/incidentRules/ruleConditionsForm.tsx:83-93 | a function's label is name+`(…)` exactly when it takes parameters and name+`()` exactly when it takes none; its value is kind FUNCTION with the name and the parameters |
| FieldCatalog.NoTracingWithoutFeature | src/sentry/static/sentry/app/views/settings/incidentRules/ruleConditionsForm.tsx:71-75 | without `transaction-events`, no catalog entry carries a tracing-only name, and no tracing-only name appears under either prefix |
| FieldCatalog.AllKeysWithFeature | src/sentry/static/sentry/app/views/settings/incidentRules/ruleConditionsForm.tsx:68-107 | with `transaction-events`, the keys are exactly every aggregation prefixed `function:` and every field prefixed `field:`, and the catalog has as many entries as the two registries together |
| FieldCatalog.SharedNameKeepsBoth | src/sentry/static/sentry/app/views/settings/incidentRules/ruleConditionsForm.tsx:78-107 | a name that is both a function and a field has two distinct entries, a FUNCTION one and a FIELD one |
| FieldCatalog.CatalogSize | src/sentry/static/sentry/app/views/settings/incidentRules/ruleConditionsForm.tsx:78-107 | the catalog has one entry per offered function plus one per offered field |
| FieldCatalog.CatalogDeterministic | src/sentry/static/sentry/app/views/settings/incidentRules/ruleConditionsForm.tsx:65-110 | two catalogs of the same inputs are equal, keys and labels alike |
| FieldCatalog.TransactionFieldDropped | src/sentry/static/sentry/app/views/settings/incidentRules/ruleConditionsForm.tsx:65-110 | with `count` taking no parameters and the tracing-only field `transaction`, an organization without tracing access gets the single entry `function:count` labelled `count()` |
| IncidentRules.RuleConditionsForm.GenerateFieldOptions | src/sentry/static/sentry/app/views/settings/incidentRules/ruleConditionsForm.tsx:65-110 | the dictionary that the filter and the two `forEach` loops build is the catalog (`IsFieldOptions`) of the registries for the organization's features |
| IncidentRules.GridColumns | src/sentry/static/sentry/app/views/settings/incidentRules/ruleConditionsForm.tsx:162-163 | the width is 2 or 3, and it is 3 exactly when the aggregate is a function whose third argument is defined |
| IncidentRules.ChoicesOf | src/sentry/static/sentry/app/views/settings/incidentRules/ruleConditionsForm.tsx:140-144 | one choice per environment, in order, keyed by its name and labelled with its display name |
| IncidentRules.RuleConditionsForm.constructor | src/sentry/static/sentry/app/views/settings/incidentRules/ruleConditionsForm.tsx:57-59 | a new form has received the props, has no environments and has sent no notice |
| IncidentRules.RuleConditionsForm.FetchData | src/sentry/static/sentry/app/views/settings/incidentRules/ruleConditionsForm.tsx:112-128 | a successful request stores the returned environments and sends no notice; a failed one leaves the environments unchanged and sends exactly one "Unable to fetch environments" notice |
| IncidentRules.RuleConditionsForm.EnvironmentList | src/sentry/static/sentry/app/views/settings/incidentRules/ruleConditionsForm.tsx:140-159 | the list is one longer than the environments; its only `null` key is at index 0, with the "All Environments" label; the environments follow in order, keyed by name; with no environments the list is the `null` entry alone |
| IncidentRules.FailedFetchScenario | src/sentry/static/sentry/app/views/settings/incidentRules/ruleConditionsForm.tsx:115-127 | after a failed request the form has no environments, its selector is disabled, exactly one notice was sent and the only choice is "All Environments" |
| IncidentRules.SuccessfulFetchScenario | src/sentry/static/sentry/app/views/settings/incidentRules/ruleConditionsForm.tsx:276 | after a successful request the selector is disabled exactly when the `disabled` prop is set, no notice was sent, and the choices are "All Environments" followed by every fetched environment |
| OrganizationRelay.GetData | src/sentry/static/sentry/app/views/settings/organizationRelay/modals/add/index.tsx:20-25 | the payload's only field, `trustedRelays`, is one longer than the saved relays, starts with them in order and ends with the entered relay |
| OrganizationRelay.RegisteredRelays | src/sentry/static/sentry/app/views/settings/organizationRelay/modals/add/index.tsx:22 | the trusted relays are the saved ones plus the entered one, with multiplicity; a relay is trusted exactly when it was saved or is the one entered |
| OrganizationRelay.RegisterTwice | src/sentry/static/sentry/app/views/settings/organizationRelay/modals/add/index.tsx:20-25 | `GetData` applied to its own payload and a second relay appends both relays, in the order given |

## Left out

- The time-window table (`ruleConditionsForm.tsx:28-38`) is a static constant of nine localized labels with nothing to prove.
- Everything rendered is left out: the JSX tree, styled components, theme objects and the selector's `styles` callbacks (`ruleConditionsForm.tsx:164-293`, `index.tsx:27-63`).
- The `performance-alerts` choice between `ColumnEditRow` and the two-choice fallback `SelectField` (`ruleConditionsForm.tsx:198-236`) is a branch of the UI framework. `getMetricDisplayName` is outside this model.
- `componentDidMount` (`ruleConditionsForm.tsx:61-63`) only starts `fetchData`. The HTTP request, its URL and query, and the `async`/`await` mechanics are left out. The request's result is the `FetchOutcome` input, and the two scenario methods play a mount followed by the request's completion.
- `addErrorMessage`, `t` and `tct` are foreign side effects and localisation. The notifier is modelled as an appended log, and the message and labels are opaque strings or tokens.
- `getDisplayName(env)` is outside this model. It is the symbolic label `DisplayName(env)`. The other fields of an environment are not modelled because the form reads only `name`.
- The contents of `FIELDS`, `AGGREGATIONS` and `TRACING_FIELDS` are outside this model and are parameters. Aggregation fields other than `parameters` are not read.
- GenerateFieldOptions: its result is a Dafny `map`, so it does not model the insertion order of the JavaScript object's keys. The display order of the options (functions first in registry order, then fields) is not modelled.
- The `ModalManager` base class is outside this model, and with it how `state.values` is filled. `getTitle` and `getBtnSaveLabel` return constant localized strings. `GetData` takes the saved relays and the entered values as inputs.
- OrganizationRelay.GetData: it works on values, so the spread's guarantee that `savedRelays` itself is not mutated holds trivially and aliasing is not modelled.
- The model fixes the props `organization.features` and `disabled` for the form's lifetime. In the component they can change between renders, and `generateFieldOptions` and the selector's `isDisabled` then read the new values.
- `steps.tsx` and `step.tsx` are presentational layout. The API-documentation test for project keys needs a live test client and has no logic of its own.
