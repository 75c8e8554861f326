/**
  The metric-alert "rule conditions" form: the metric option catalog it
  builds, the environment list it loads and offers, and the grid width of
  its aggregate editor.

  The HTTP request for the environments is an input (`FetchOutcome`); the
  error notifier is a log of the messages sent to it; the display name of an
  environment and the "All Environments" node are symbolic labels.
 */
module IncidentRules {
  import opened Wrappers
  import opened FieldCatalog

  /** An environment as the form reads it: only its name is used directly. */
  datatype Environment = Environment(name: string)

  /** The label shown for an environment choice. */
  datatype ChoiceLabel =
    | AllEnvironments            // the "All Environments" node with its explanatory note
    | DisplayName(env: Environment)  // `getDisplayName(env)`

  /** A `[environment, label]` pair of the environment selector; `None` is `null`, "any environment". */
  datatype EnvironmentChoice = EnvironmentChoice(environment: Option<string>, choiceLabel: ChoiceLabel)

  /** How the environments request ended. */
  datatype FetchOutcome = Fetched(environments: seq<Environment>) | FetchFailed

  const UnableToFetchEnvironments: string := "Unable to fetch environments"

  /**
    The selected aggregate: a plain field, or a function call
    `[aggregation, argument, refinement]` whose third slot may be undefined.
    In `refinement`, `None` is `undefined`: its type admits no `null`.
   */
  datatype Column =
    | FieldColumn(field: string)
    | FunctionColumn(aggregation: string, argument: string, refinement: Option<string>)

  /** Width of the aggregate editor: three columns when a function's third argument is given, two otherwise. */
  function GridColumns(aggregate: Column): (columns: nat)
    ensures columns == 2 || columns == 3
    ensures columns == 3 <==> aggregate.FunctionColumn? && aggregate.refinement.Some?
  {
    if aggregate.FunctionColumn? && aggregate.refinement != None then 3 else 2
  }

  /** `environments.map(env => [env.name, getDisplayName(env)])`. */
  function ChoicesOf(environments: seq<Environment>): (choices: seq<EnvironmentChoice>)
    ensures |choices| == |environments|
    ensures forall i | 0 <= i < |environments| ::
              choices[i] == EnvironmentChoice(Some(environments[i].name), DisplayName(environments[i]))
  {
    seq(|environments|, i requires 0 <= i < |environments| =>
      EnvironmentChoice(Some(environments[i].name), DisplayName(environments[i])))
  }

  class RuleConditionsForm {
    /** `organization.features`. */
    const features: seq<string>
    /** The `disabled` prop. */
    const disabled: bool
    /** `state.environments`: `None` until a fetch succeeds. */
    var environments: Option<seq<Environment>>
    /** Messages handed to the error notifier, oldest first. */
    var notices: seq<string>

    constructor (features: seq<string>, disabled: bool)
      ensures this.features == features && this.disabled == disabled
      ensures environments == None && notices == []
    {
      this.features := features;
      this.disabled := disabled;
      environments := None;
      notices := [];
    }

    /** Completion of the environments request: store the list on success, notify once on failure. */
    method FetchData(outcome: FetchOutcome)
      modifies this
      ensures outcome.Fetched? ==> environments == Some(outcome.environments) && notices == old(notices)
      ensures outcome.FetchFailed? ==>
                environments == old(environments) && notices == old(notices) + [UnableToFetchEnvironments]
    {
      match outcome
      case Fetched(envs) => environments := Some(envs);
      case FetchFailed => notices := notices + [UnableToFetchEnvironments];
    }

    /** Whether the environment selector is disabled. */
    predicate EnvironmentSelectDisabled()
      reads this
    {
      disabled || environments == None
    }

    /**
      The selector's choices: the fetched environments in their order, each
      keyed by its name, behind a single leading `null` "All Environments" entry.
     */
    method EnvironmentList() returns (list: seq<EnvironmentChoice>)
      ensures |list| == 1 + (if environments.Some? then |environments.value| else 0)
      ensures list[0] == EnvironmentChoice(None, AllEnvironments)
      ensures forall i | 0 <= i < |list| :: list[i].environment == None <==> i == 0
      ensures environments.Some? ==>
                forall i | 0 <= i < |environments.value| ::
                  list[i + 1] == EnvironmentChoice(Some(environments.value[i].name), DisplayName(environments.value[i]))
      ensures environments.None? ==> list == [EnvironmentChoice(None, AllEnvironments)]
    {
      list := if environments.Some? then ChoicesOf(environments.value) else [];
      // `environmentList.unshift([null, anyEnvironmentLabel])`
      list := [EnvironmentChoice(None, AllEnvironments)] + list;
    }

    /**
      The metric option catalog. `aggregationNames` and `fieldNames` are
      `Object.keys(AGGREGATIONS)` and `Object.keys(FIELDS)`.
     */
    method GenerateFieldOptions<P, D>(aggregations: map<string, seq<P>>, aggregationNames: seq<string>,
                                      fieldTypes: map<string, D>, fieldNames: seq<string>,
                                      tracingFields: seq<string>)
      returns (fieldOptions: map<string, SelectValue<P, D>>)
      requires ListsKeys(aggregationNames, aggregations)
      requires ListsKeys(fieldNames, fieldTypes)
      ensures IsFieldOptions(fieldOptions, features, aggregations, fieldTypes, tracingFields)
    {
      var fields := fieldNames;
      var functions := aggregationNames;
      if !HasTracing(features) {
        fields := StripTracing(fields, tracingFields);
        functions := StripTracing(functions, tracingFields);
      }
      // The two enumerations name registry entries, and the loops below fill the catalog.
      FilledIsFieldOptions<P, D>(aggregationNames, fieldNames, features, aggregations, fieldTypes, tracingFields,
                                 functions, fields);

      fieldOptions := map[];
      var i := 0;
      while i < |functions|
        invariant 0 <= i <= |functions|
        invariant fieldOptions == FunctionOptionsOf(functions[..i], aggregations)
      {
        var func := functions[i];
        var parameters := aggregations[func];
        var ellipsis := if |parameters| > 0 then Ellipsis else "";
        FunctionOptionsOfStep<P, D>(functions, i, aggregations, fieldOptions, ellipsis);
        fieldOptions := fieldOptions["function:" + func :=
                                     SelectValue(func + "(" + ellipsis + ")", Function(func, parameters))];
        i := i + 1;
      }
      assert functions[..i] == functions;

      var j := 0;
      while j < |fields|
        invariant 0 <= j <= |fields|
        invariant fieldOptions == FieldOptionsOf(fields[..j], fieldTypes, FunctionOptionsOf(functions, aggregations))
      {
        var field := fields[j];
        FieldOptionsOfStep(fields, j, fieldTypes, FunctionOptionsOf<P, D>(functions, aggregations), fieldOptions);
        fieldOptions := fieldOptions["field:" + field := SelectValue(field, Field(field, fieldTypes[field]))];
        j := j + 1;
      }
      assert fields[..j] == fields;
    }
  }

  /** A form whose environments request fails keeps no environments, disables the selector and notifies once. */
  method FailedFetchScenario(features: seq<string>, disabled: bool)
    returns (environments: Option<seq<Environment>>, selectorDisabled: bool, notices: seq<string>,
             list: seq<EnvironmentChoice>)
    ensures environments == None
    ensures selectorDisabled
    ensures notices == [UnableToFetchEnvironments]
    ensures list == [EnvironmentChoice(None, AllEnvironments)]
  {
    var form := new RuleConditionsForm(features, disabled);
    form.FetchData(FetchFailed);
    environments, selectorDisabled, notices := form.environments, form.EnvironmentSelectDisabled(), form.notices;
    list := form.EnvironmentList();
  }

  /** A form whose environments request succeeds enables the selector unless disabled, and lists every environment. */
  method SuccessfulFetchScenario(features: seq<string>, disabled: bool, fetched: seq<Environment>)
    returns (selectorDisabled: bool, notices: seq<string>, list: seq<EnvironmentChoice>)
    ensures selectorDisabled == disabled
    ensures notices == []
    ensures list == [EnvironmentChoice(None, AllEnvironments)] + ChoicesOf(fetched)
  {
    var form := new RuleConditionsForm(features, disabled);
    form.FetchData(Fetched(fetched));
    selectorDisabled, notices := form.EnvironmentSelectDisabled(), form.notices;
    list := form.EnvironmentList();
  }
}
