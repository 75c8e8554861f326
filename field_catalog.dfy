/**
  The metric options of the alert-conditions form: one entry per aggregate
  function and one per event field, keyed by `function:<name>` or
  `field:<name>`, with the tracing-only names removed when the organization
  lacks the `transaction-events` feature.

  The registries themselves (AGGREGATIONS, FIELDS, TRACING_FIELDS) are
  inputs. `P` stands for an aggregate's parameter descriptor and `D` for a
  field's column data type; the catalog only carries them along.
 */
module FieldCatalog {

  /** The `value` of an option: kind FUNCTION with its parameters, or kind FIELD with its data type. */
  datatype FieldValue<P, D> =
    | Function(name: string, parameters: seq<P>)
    | Field(name: string, dataType: D)

  /** One selectable option: its display label and its tagged value. */
  datatype SelectValue<P, D> = SelectValue(labelText: string, value: FieldValue<P, D>)

  const TransactionEvents: string := "transaction-events"
  const FunctionPrefix: string := "function:"
  const FieldPrefix: string := "field:"
  /** U+2026, shown between the parentheses of a function that takes parameters. */
  const Ellipsis: string := "\U{2026}"

  function FunctionKey(name: string): string { FunctionPrefix + name }

  function FieldKey(name: string): string { FieldPrefix + name }

  predicate HasTracing(features: seq<string>) { TransactionEvents in features }

  /** A name survives the catalog's filter: the organization has tracing access, or the name is not tracing-only. */
  predicate Offered(name: string, features: seq<string>, tracingFields: seq<string>) {
    HasTracing(features) || name !in tracingFields
  }

  /** `names` is an enumeration of the keys of `registry`, as `Object.keys` gives one. */
  predicate ListsKeys<V>(names: seq<string>, registry: map<string, V>) {
    && (forall i | 0 <= i < |names| :: names[i] in registry)
    && (forall k | k in registry :: k in names)
  }

  /** `names.filter(item => !TRACING_FIELDS.includes(item))`. */
  function StripTracing(names: seq<string>, tracingFields: seq<string>): (kept: seq<string>)
    ensures forall x :: x in kept <==> x in names && x !in tracingFields
    ensures |kept| <= |names|
  {
    if names == [] then []
    else
      var rest := StripTracing(names[1..], tracingFields);
      if names[0] in tracingFields then rest else [names[0]] + rest
  }

  /** The names the catalog keeps: all of them with tracing access, the non-tracing ones otherwise. */
  function OfferedList(names: seq<string>, features: seq<string>, tracingFields: seq<string>): seq<string> {
    if HasTracing(features) then names else StripTracing(names, tracingFields)
  }

  /** Every kept name is a registry name. */
  lemma OfferedListInRegistry<V>(names: seq<string>, registry: map<string, V>, features: seq<string>,
                                 tracingFields: seq<string>, kept: seq<string>)
    requires ListsKeys(names, registry)
    requires kept == OfferedList(names, features, tracingFields)
    ensures forall k | 0 <= k < |kept| :: kept[k] in registry
  {
    forall k | 0 <= k < |kept| ensures kept[k] in registry {
      assert kept[k] in kept;
      var i :| 0 <= i < |names| && names[i] == kept[k];
    }
  }

  /** The kept names are exactly the surviving registry names. */
  lemma OfferedListExact<V>(names: seq<string>, registry: map<string, V>, features: seq<string>,
                            tracingFields: seq<string>)
    requires ListsKeys(names, registry)
    ensures forall x :: x in OfferedList(names, features, tracingFields) <==> x in registry && Offered(x, features, tracingFields)
  {
    forall x | x in names ensures x in registry {
      var i :| 0 <= i < |names| && names[i] == x;
    }
  }

  // ---------------------------------------------------------------------
  // Reference definition of the catalog
  // ---------------------------------------------------------------------

  /** The option for a function: label `name(…)` when it takes parameters, `name()` otherwise. */
  function FunctionOption<P, D>(name: string, parameters: seq<P>): SelectValue<P, D> {
    SelectValue(if |parameters| > 0 then name + "(\U{2026})" else name + "()", Function(name, parameters))
  }

  /** The option for a field: its bare name as label. */
  function FieldOption<P, D>(name: string, dataType: D): SelectValue<P, D> {
    SelectValue(name, Field(name, dataType))
  }

  ghost function OfferedNames<V>(registry: map<string, V>, features: seq<string>, tracingFields: seq<string>): set<string> {
    set n | n in registry && Offered(n, features, tracingFields)
  }

  ghost function FunctionKeys(names: set<string>): set<string> {
    set n | n in names :: FunctionKey(n)
  }

  ghost function FieldKeys(names: set<string>): set<string> {
    set n | n in names :: FieldKey(n)
  }

  ghost function NameSet(names: seq<string>): set<string> {
    set n | n in names
  }

  lemma NameSetAppend(names: seq<string>, x: string)
    ensures NameSet(names + [x]) == NameSet(names) + {x}
  {
  }

  lemma FunctionKeysAdd(names: set<string>, x: string)
    ensures FunctionKeys(names + {x}) == FunctionKeys(names) + {FunctionKey(x)}
  {
  }

  lemma FieldKeysAdd(names: set<string>, x: string)
    ensures FieldKeys(names + {x}) == FieldKeys(names) + {FieldKey(x)}
  {
  }

  /**
    `r` is the catalog of the given registries for an organization with
    the given features: its keys are the prefixed surviving names, and each
    key holds the option built from that name's registry entry.
   */
  ghost predicate IsFieldOptions<P, D>(r: map<string, SelectValue<P, D>>, features: seq<string>,
                                       aggregations: map<string, seq<P>>, fields: map<string, D>,
                                       tracingFields: seq<string>)
  {
    && r.Keys == FunctionKeys(OfferedNames(aggregations, features, tracingFields))
                 + FieldKeys(OfferedNames(fields, features, tracingFields))
    && (forall f | f in aggregations && Offered(f, features, tracingFields) ::
          FunctionKey(f) in r && r[FunctionKey(f)] == FunctionOption(f, aggregations[f]))
    && (forall n | n in fields && Offered(n, features, tracingFields) ::
          FieldKey(n) in r && r[FieldKey(n)] == FieldOption(n, fields[n]))
  }

  // ---------------------------------------------------------------------
  // Keys
  // ---------------------------------------------------------------------

  /** No function key equals a field key, whatever the two names. */
  lemma KeysDisjoint(f: string, n: string)
    ensures FunctionKey(f) != FieldKey(n)
  {
    assert FunctionKey(f)[1] == 'u';
    assert FieldKey(n)[1] == 'i';
  }

  lemma PrefixInjective(prefix: string, a: string, b: string)
    requires prefix + a == prefix + b
    ensures a == b
  {
    assert a == (prefix + a)[|prefix|..];
    assert b == (prefix + b)[|prefix|..];
  }

  lemma FunctionKeyInjective(a: string, b: string)
    ensures FunctionKey(a) == FunctionKey(b) <==> a == b
  {
    if FunctionKey(a) == FunctionKey(b) { PrefixInjective(FunctionPrefix, a, b); }
  }

  lemma FieldKeyInjective(a: string, b: string)
    ensures FieldKey(a) == FieldKey(b) <==> a == b
  {
    if FieldKey(a) == FieldKey(b) { PrefixInjective(FieldPrefix, a, b); }
  }

  lemma {:induction false} FunctionKeysSize(names: set<string>)
    ensures |FunctionKeys(names)| == |names|
  {
    if names != {} {
      var x :| x in names;
      var rest := names - {x};
      FunctionKeysSize(rest);
      assert FunctionKeys(names) == FunctionKeys(rest) + {FunctionKey(x)};
      forall y | y in rest ensures FunctionKey(y) != FunctionKey(x) {
        FunctionKeyInjective(y, x);
      }
      assert FunctionKey(x) !in FunctionKeys(rest);
    }
  }

  lemma {:induction false} FieldKeysSize(names: set<string>)
    ensures |FieldKeys(names)| == |names|
  {
    if names != {} {
      var x :| x in names;
      var rest := names - {x};
      FieldKeysSize(rest);
      assert FieldKeys(names) == FieldKeys(rest) + {FieldKey(x)};
      forall y | y in rest ensures FieldKey(y) != FieldKey(x) {
        FieldKeyInjective(y, x);
      }
      assert FieldKey(x) !in FieldKeys(rest);
    }
  }

  // ---------------------------------------------------------------------
  // The two `forEach` loops that fill the catalog, as folds
  // ---------------------------------------------------------------------

  /** The dictionary after the function loop has run over `names`, in order. */
  function FunctionOptionsOf<P, D>(names: seq<string>, aggregations: map<string, seq<P>>): map<string, SelectValue<P, D>>
    requires forall k | 0 <= k < |names| :: names[k] in aggregations
  {
    if names == [] then map[]
    else
      var func := names[|names| - 1];
      FunctionOptionsOf(names[..|names| - 1], aggregations)[FunctionKey(func) := FunctionOption(func, aggregations[func])]
  }

  /** `base` after the field loop has run over `names`, in order. */
  function FieldOptionsOf<P, D>(names: seq<string>, fields: map<string, D>, base: map<string, SelectValue<P, D>>)
    : map<string, SelectValue<P, D>>
    requires forall k | 0 <= k < |names| :: names[k] in fields
  {
    if names == [] then base
    else
      var field := names[|names| - 1];
      FieldOptionsOf(names[..|names| - 1], fields, base)[FieldKey(field) := FieldOption(field, fields[field])]
  }

  /** One more turn of the function loop, with the key and label spelled as the loop builds them. */
  lemma FunctionOptionsOfStep<P, D>(names: seq<string>, i: nat, aggregations: map<string, seq<P>>,
                                    r: map<string, SelectValue<P, D>>, ellipsis: string)
    requires i < |names|
    requires forall k | 0 <= k < |names| :: names[k] in aggregations
    requires r == FunctionOptionsOf<P, D>(names[..i], aggregations)
    requires ellipsis == if |aggregations[names[i]]| > 0 then Ellipsis else ""
    ensures r["function:" + names[i] := SelectValue(names[i] + "(" + ellipsis + ")", Function(names[i], aggregations[names[i]]))]
            == FunctionOptionsOf<P, D>(names[..i + 1], aggregations)
  {
    var func := names[i];
    assert names[..i + 1][..i] == names[..i];
    assert "function:" + func == FunctionKey(func);
    if |aggregations[func]| > 0 {
      assert func + "(" + ellipsis + ")" == func + "(\U{2026})";
    } else {
      assert func + "(" + ellipsis + ")" == func + "()";
    }
  }

  /** One more turn of the field loop, with the key spelled as the loop builds it. */
  lemma FieldOptionsOfStep<P, D>(names: seq<string>, j: nat, fields: map<string, D>, base: map<string, SelectValue<P, D>>,
                                 r: map<string, SelectValue<P, D>>)
    requires j < |names|
    requires forall k | 0 <= k < |names| :: names[k] in fields
    requires r == FieldOptionsOf(names[..j], fields, base)
    ensures r["field:" + names[j] := SelectValue(names[j], Field(names[j], fields[names[j]]))]
            == FieldOptionsOf(names[..j + 1], fields, base)
  {
    assert names[..j + 1][..j] == names[..j];
    assert "field:" + names[j] == FieldKey(names[j]);
  }

  /** The catalog holds exactly the function options of `names`. */
  ghost predicate HoldsFunctions<P, D>(r: map<string, SelectValue<P, D>>, names: seq<string>,
                                       aggregations: map<string, seq<P>>)
  {
    && (forall f | f in names :: f in aggregations)
    && r.Keys == FunctionKeys(NameSet(names))
    && (forall f | f in names :: r[FunctionKey(f)] == FunctionOption(f, aggregations[f]))
  }

  /** The catalog holds exactly the function options of `functions` and the field options of `names`. */
  ghost predicate HoldsFields<P, D>(r: map<string, SelectValue<P, D>>, functions: set<string>, names: seq<string>,
                                    aggregations: map<string, seq<P>>, fields: map<string, D>)
  {
    && (forall f | f in functions :: f in aggregations)
    && (forall n | n in names :: n in fields)
    && r.Keys == FunctionKeys(functions) + FieldKeys(NameSet(names))
    && (forall f | f in functions :: r[FunctionKey(f)] == FunctionOption(f, aggregations[f]))
    && (forall n | n in names :: r[FieldKey(n)] == FieldOption(n, fields[n]))
  }

  /** Adding a function's option keeps the catalog exact for one more name. */
  lemma AddFunctionHolds<P, D>(r: map<string, SelectValue<P, D>>, init: seq<string>, func: string,
                               aggregations: map<string, seq<P>>)
    requires HoldsFunctions(r, init, aggregations)
    requires func in aggregations
    ensures HoldsFunctions(r[FunctionKey(func) := FunctionOption(func, aggregations[func])], init + [func], aggregations)
  {
    var r' := r[FunctionKey(func) := FunctionOption(func, aggregations[func])];
    NameSetAppend(init, func);
    FunctionKeysAdd(NameSet(init), func);
    assert r'.Keys == FunctionKeys(NameSet(init + [func]));
    forall f | f in init + [func] ensures r'[FunctionKey(f)] == FunctionOption(f, aggregations[f]) {
      if f != func {
        FunctionKeyInjective(f, func);
        assert f in init;
      }
    }
  }

  /** Adding a field's option keeps the function entries and makes the field entries exact for one more name. */
  lemma AddFieldHolds<P, D>(r: map<string, SelectValue<P, D>>, functions: set<string>, init: seq<string>,
                            field: string, aggregations: map<string, seq<P>>, fields: map<string, D>)
    requires HoldsFields(r, functions, init, aggregations, fields)
    requires field in fields
    ensures HoldsFields(r[FieldKey(field) := FieldOption(field, fields[field])], functions, init + [field],
                        aggregations, fields)
  {
    var r' := r[FieldKey(field) := FieldOption(field, fields[field])];
    NameSetAppend(init, field);
    FieldKeysAdd(NameSet(init), field);
    assert r'.Keys == FunctionKeys(functions) + FieldKeys(NameSet(init + [field]));
    forall f | f in functions ensures r'[FunctionKey(f)] == FunctionOption(f, aggregations[f]) {
      KeysDisjoint(f, field);
    }
    forall n | n in init + [field] ensures r'[FieldKey(n)] == FieldOption(n, fields[n]) {
      if n != field {
        FieldKeyInjective(n, field);
        assert n in init;
      }
    }
  }

  lemma {:induction false} FunctionOptionsOfHolds<P, D>(names: seq<string>, aggregations: map<string, seq<P>>)
    requires forall f | f in names :: f in aggregations
    ensures HoldsFunctions(FunctionOptionsOf<P, D>(names, aggregations), names, aggregations)
  {
    if names == [] {
      assert NameSet(names) == {};
    } else {
      var init, func := names[..|names| - 1], names[|names| - 1];
      assert names == init + [func];
      FunctionOptionsOfHolds<P, D>(init, aggregations);
      AddFunctionHolds(FunctionOptionsOf<P, D>(init, aggregations), init, func, aggregations);
    }
  }

  lemma {:induction false} FieldOptionsOfHolds<P, D>(names: seq<string>, fields: map<string, D>,
                                                     base: map<string, SelectValue<P, D>>, functions: set<string>,
                                                     aggregations: map<string, seq<P>>)
    requires forall n | n in names :: n in fields
    requires HoldsFields(base, functions, [], aggregations, fields)
    ensures HoldsFields(FieldOptionsOf(names, fields, base), functions, names, aggregations, fields)
  {
    if names != [] {
      var init, field := names[..|names| - 1], names[|names| - 1];
      assert names == init + [field];
      FieldOptionsOfHolds(init, fields, base, functions, aggregations);
      AddFieldHolds(FieldOptionsOf(init, fields, base), functions, init, field, aggregations, fields);
    }
  }

  /**
    Running the function loop over an enumeration of the surviving functions
    and then the field loop over an enumeration of the surviving fields
    yields the catalog.
   */
  lemma FilledIsFieldOptions<P, D>(aggregationNames: seq<string>, fieldNames: seq<string>,
                                   features: seq<string>, aggregations: map<string, seq<P>>,
                                   fields: map<string, D>, tracingFields: seq<string>,
                                   functions: seq<string>, names: seq<string>)
    requires ListsKeys(aggregationNames, aggregations)
    requires ListsKeys(fieldNames, fields)
    requires functions == OfferedList(aggregationNames, features, tracingFields)
    requires names == OfferedList(fieldNames, features, tracingFields)
    ensures forall k | 0 <= k < |functions| :: functions[k] in aggregations
    ensures forall k | 0 <= k < |names| :: names[k] in fields
    ensures IsFieldOptions(FieldOptionsOf(names, fields, FunctionOptionsOf<P, D>(functions, aggregations)),
                           features, aggregations, fields, tracingFields)
  {
    OfferedListInRegistry(aggregationNames, aggregations, features, tracingFields, functions);
    OfferedListInRegistry(fieldNames, fields, features, tracingFields, names);
    OfferedListExact(aggregationNames, aggregations, features, tracingFields);
    OfferedListExact(fieldNames, fields, features, tracingFields);
    var base := FunctionOptionsOf<P, D>(functions, aggregations);
    FunctionOptionsOfHolds<P, D>(functions, aggregations);
    assert NameSet([]) == {};
    assert FieldKeys({}) == {};
    FieldOptionsOfHolds(names, fields, base, NameSet(functions), aggregations);
    assert NameSet(functions) == OfferedNames(aggregations, features, tracingFields);
    assert NameSet(names) == OfferedNames(fields, features, tracingFields);
  }

  // ---------------------------------------------------------------------
  // Properties of the catalog
  // ---------------------------------------------------------------------

  /** The label of a function option shows an ellipsis exactly when the function takes parameters. */
  lemma FunctionLabelFormat<P, D>(name: string, parameters: seq<P>)
    ensures (FunctionOption<P, D>(name, parameters).labelText == name + "(\U{2026})") <==> |parameters| > 0
    ensures (FunctionOption<P, D>(name, parameters).labelText == name + "()") <==> |parameters| == 0
    ensures FunctionOption<P, D>(name, parameters).value == Function(name, parameters)
  {
    var withEllipsis, bare := name + "(\U{2026})", name + "()";
    assert |withEllipsis| != |bare|;
  }

  /** Without `transaction-events`, no entry of the catalog carries a tracing-only name, under either prefix. */
  lemma NoTracingWithoutFeature<P, D>(r: map<string, SelectValue<P, D>>, features: seq<string>,
                                     aggregations: map<string, seq<P>>, fields: map<string, D>,
                                     tracingFields: seq<string>)
    requires IsFieldOptions(r, features, aggregations, fields, tracingFields)
    requires !HasTracing(features)
    ensures forall k | k in r :: r[k].value.name !in tracingFields
    ensures forall n | n in tracingFields :: FunctionKey(n) !in r && FieldKey(n) !in r
  {
    forall k | k in r ensures r[k].value.name !in tracingFields {
      if k in FunctionKeys(OfferedNames(aggregations, features, tracingFields)) {
        var f :| f in OfferedNames(aggregations, features, tracingFields) && k == FunctionKey(f);
      } else {
        var n :| n in OfferedNames(fields, features, tracingFields) && k == FieldKey(n);
      }
    }
    forall n | n in tracingFields ensures FunctionKey(n) !in r && FieldKey(n) !in r {
      if FunctionKey(n) in r {
        if FunctionKey(n) in FunctionKeys(OfferedNames(aggregations, features, tracingFields)) {
          var f :| f in OfferedNames(aggregations, features, tracingFields) && FunctionKey(n) == FunctionKey(f);
          FunctionKeyInjective(n, f);
        } else {
          var m :| m in OfferedNames(fields, features, tracingFields) && FunctionKey(n) == FieldKey(m);
          KeysDisjoint(n, m);
        }
      }
      if FieldKey(n) in r {
        if FieldKey(n) in FieldKeys(OfferedNames(fields, features, tracingFields)) {
          var m :| m in OfferedNames(fields, features, tracingFields) && FieldKey(n) == FieldKey(m);
          FieldKeyInjective(n, m);
        } else {
          var f :| f in OfferedNames(aggregations, features, tracingFields) && FieldKey(n) == FunctionKey(f);
          KeysDisjoint(f, n);
        }
      }
    }
  }

  /** With `transaction-events`, every registry name is offered: the keys are all prefixed function and field names. */
  lemma AllKeysWithFeature<P, D>(r: map<string, SelectValue<P, D>>, features: seq<string>,
                                aggregations: map<string, seq<P>>, fields: map<string, D>,
                                tracingFields: seq<string>)
    requires IsFieldOptions(r, features, aggregations, fields, tracingFields)
    requires HasTracing(features)
    ensures r.Keys == (set f | f in aggregations :: FunctionKey(f)) + (set n | n in fields :: FieldKey(n))
    ensures |r| == |aggregations| + |fields|
  {
    assert OfferedNames(aggregations, features, tracingFields) == aggregations.Keys;
    assert OfferedNames(fields, features, tracingFields) == fields.Keys;
    CatalogSize(r, features, aggregations, fields, tracingFields);
  }

  /** A name in both registries yields two entries, one of each kind, and neither replaces the other. */
  lemma SharedNameKeepsBoth<P, D>(r: map<string, SelectValue<P, D>>, features: seq<string>,
                                 aggregations: map<string, seq<P>>, fields: map<string, D>,
                                 tracingFields: seq<string>, name: string)
    requires IsFieldOptions(r, features, aggregations, fields, tracingFields)
    requires name in aggregations && name in fields && Offered(name, features, tracingFields)
    ensures FunctionKey(name) != FieldKey(name)
    ensures FunctionKey(name) in r && r[FunctionKey(name)].value == Function(name, aggregations[name])
    ensures FieldKey(name) in r && r[FieldKey(name)].value == Field(name, fields[name])
  {
    KeysDisjoint(name, name);
  }

  /** The catalog holds one entry per surviving function plus one per surviving field. */
  lemma CatalogSize<P, D>(r: map<string, SelectValue<P, D>>, features: seq<string>,
                         aggregations: map<string, seq<P>>, fields: map<string, D>,
                         tracingFields: seq<string>)
    requires IsFieldOptions(r, features, aggregations, fields, tracingFields)
    ensures |r| == |OfferedNames(aggregations, features, tracingFields)| + |OfferedNames(fields, features, tracingFields)|
  {
    var fns := OfferedNames(aggregations, features, tracingFields);
    var fds := OfferedNames(fields, features, tracingFields);
    FunctionKeysSize(fns);
    FieldKeysSize(fds);
    forall k | k in FunctionKeys(fns) ensures k !in FieldKeys(fds) {
      var f :| f in fns && k == FunctionKey(f);
      if k in FieldKeys(fds) {
        var n :| n in fds && k == FieldKey(n);
        KeysDisjoint(f, n);
      }
    }
    assert FunctionKeys(fns) * FieldKeys(fds) == {};
    assert |r| == |r.Keys|;
  }

  /** The inputs determine the catalog: two catalogs of the same inputs are equal, keys and labels alike. */
  lemma CatalogDeterministic<P, D>(r1: map<string, SelectValue<P, D>>, r2: map<string, SelectValue<P, D>>,
                                  features: seq<string>, aggregations: map<string, seq<P>>,
                                  fields: map<string, D>, tracingFields: seq<string>)
    requires IsFieldOptions(r1, features, aggregations, fields, tracingFields)
    requires IsFieldOptions(r2, features, aggregations, fields, tracingFields)
    ensures r1 == r2
  {
    forall k | k in r1 ensures r1[k] == r2[k] {
      if k in FunctionKeys(OfferedNames(aggregations, features, tracingFields)) {
        var f :| f in OfferedNames(aggregations, features, tracingFields) && k == FunctionKey(f);
      } else {
        var n :| n in OfferedNames(fields, features, tracingFields) && k == FieldKey(n);
      }
    }
  }

  /**
    A registry with the function `count` (no parameters) and the tracing-only
    field `transaction`, for an organization without tracing access: the
    catalog is the single entry `function:count` labelled `count()`.
   */
  lemma TransactionFieldDropped(r: map<string, SelectValue<string, string>>)
    requires IsFieldOptions(r, [], map["count" := []], map["transaction" := "string"], ["transaction"])
    ensures r == map["function:count" := SelectValue("count()", Function("count", []))]
  {
    var aggregations: map<string, seq<string>> := map["count" := []];
    var fields := map["transaction" := "string"];
    assert OfferedNames(aggregations, [], ["transaction"]) == {"count"};
    assert OfferedNames(fields, [], ["transaction"]) == {};
    assert FunctionKey("count") == "function:count";
    assert r.Keys == {"function:count"};
    assert Offered("count", [], ["transaction"]);
    assert r["function:count"] == FunctionOption("count", []);
    assert "count" + "()" == "count()";
  }
}
