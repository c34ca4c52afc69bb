/**
 * The saved-variable drift check of the dashboard's template-variable provider
 * (ui/dashboards/src/context/TemplateVariableProvider/utils.ts): which saved
 * variable definitions no longer agree with the values currently held in the
 * variable store.
 */
module TemplateVariables {

  /**
   * A variable value as the store holds it. `Undefined` is also what a missing
   * store entry reads as; `TextList` is an array, compared by reference, so it
   * carries the identity of that array.
   */
  datatype VariableValue = Undefined | Null | Text(s: string) | TextList(reference: nat)

  /** A saved variable definition; kinds other than list and text variables are kept by kind name. */
  datatype VariableDefinition =
    | ListVariable(name: string, defaultValue: VariableValue)
    | TextVariable(name: string, value: string)
    | OtherVariable(kind: string, name: string)

  /** The store: variable name to current value. */
  type VariableStateMap = map<string, VariableValue>

  /** `varState[name]?.value`. */
  function CurrentValue(varState: VariableStateMap, name: string): VariableValue {
    if name in varState then varState[name] else Undefined
  }

  /** A text variable's current value: the string if it is one, else the empty string. */
  function TextReading(v: VariableValue): string {
    if v.Text? then v.s else ""
  }

  /** The definition disagrees with the store (strict inequality on values). */
  predicate IsModified(definition: VariableDefinition, varState: VariableStateMap) {
    match definition
    case ListVariable(name, defaultValue) =>
      var current := CurrentValue(varState, name);
      current != Null && current != defaultValue
    case TextVariable(name, value) =>
      value != TextReading(CurrentValue(varState, name))
    case OtherVariable(_, _) => false
  }

  /** The names of the modified definitions, in definition order. */
  function ModifiedNames(definitions: seq<VariableDefinition>, varState: VariableStateMap): seq<string> {
    if definitions == [] then []
    else
      var last := definitions[|definitions| - 1];
      ModifiedNames(definitions[..|definitions| - 1], varState) + (if IsModified(last, varState) then [last.name] else [])
  }

  /**
   * `checkSavedDefaultVariableStatus`: the flag and the list of modified names,
   * pushed in definition order.
   */
  method CheckSavedDefaultVariableStatus(definitions: seq<VariableDefinition>, varState: VariableStateMap)
    returns (isSavedVariableModified: bool, modifiedVariableNames: seq<string>)
    ensures modifiedVariableNames == ModifiedNames(definitions, varState)
    ensures isSavedVariableModified <==> |modifiedVariableNames| > 0
  {
    isSavedVariableModified := false;
    modifiedVariableNames := [];
    var i := 0;
    while i < |definitions|
      invariant 0 <= i <= |definitions|
      invariant modifiedVariableNames == ModifiedNames(definitions[..i], varState)
      invariant isSavedVariableModified <==> |modifiedVariableNames| > 0
    {
      var savedVariable := definitions[i];
      assert definitions[..i + 1][..i] == definitions[..i];
      match savedVariable {
        case ListVariable(name, defaultValue) =>
          var currentValue := CurrentValue(varState, name);
          if currentValue != Null && currentValue != defaultValue {
            modifiedVariableNames := modifiedVariableNames + [name];
            isSavedVariableModified := true;
          }
        case TextVariable(name, value) =>
          var currentVariableValue := if CurrentValue(varState, name).Text? then CurrentValue(varState, name).s else "";
          if value != currentVariableValue {
            modifiedVariableNames := modifiedVariableNames + [name];
            isSavedVariableModified := true;
          }
        case OtherVariable(_, _) =>
      }
      i := i + 1;
    }
    assert definitions[..i] == definitions;
  }

  // ---------------------------------------------------------------------------
  // Properties

  /** The check over a concatenation is the check over each part, in order. */
  lemma {:induction false} ModifiedNamesAppend(a: seq<VariableDefinition>, b: seq<VariableDefinition>, varState: VariableStateMap)
    ensures ModifiedNames(a + b, varState) == ModifiedNames(a, varState) + ModifiedNames(b, varState)
  {
    if b != [] {
      var init := b[..|b| - 1];
      ModifiedNamesAppend(a, init, varState);
      assert (a + b)[..|a + b| - 1] == a + init;
    } else {
      assert a + b == a;
    }
  }

  /** A name is reported exactly when some list or text definition of that name is modified. */
  lemma {:induction false} ModifiedNamesMembership(definitions: seq<VariableDefinition>, varState: VariableStateMap, name: string)
    ensures name in ModifiedNames(definitions, varState)
            <==> exists k :: 0 <= k < |definitions| && definitions[k].name == name
                             && !definitions[k].OtherVariable? && IsModified(definitions[k], varState)
  {
    if definitions != [] {
      var init := definitions[..|definitions| - 1];
      ModifiedNamesMembership(init, varState, name);
      if name in ModifiedNames(init, varState) {
        var k :| 0 <= k < |init| && init[k].name == name && !init[k].OtherVariable? && IsModified(init[k], varState);
        assert definitions[k] == init[k];
      }
      if exists k :: 0 <= k < |definitions| && definitions[k].name == name
                     && !definitions[k].OtherVariable? && IsModified(definitions[k], varState) {
        var k :| 0 <= k < |definitions| && definitions[k].name == name
                 && !definitions[k].OtherVariable? && IsModified(definitions[k], varState);
        if k < |init| {
          assert init[k] == definitions[k];
        }
      }
    }
  }

  /** At most one name per definition is reported. */
  lemma {:induction false} ModifiedNamesBounded(definitions: seq<VariableDefinition>, varState: VariableStateMap)
    ensures |ModifiedNames(definitions, varState)| <= |definitions|
  {
    if definitions != [] {
      ModifiedNamesBounded(definitions[..|definitions| - 1], varState);
    }
  }

  /** A definition of any other kind, wherever it stands, changes nothing. */
  lemma OtherKindsIgnored(before: seq<VariableDefinition>, after: seq<VariableDefinition>, kind: string, name: string,
                          varState: VariableStateMap)
    ensures ModifiedNames(before + [OtherVariable(kind, name)] + after, varState) == ModifiedNames(before + after, varState)
  {
    ModifiedNamesAppend(before + [OtherVariable(kind, name)], after, varState);
    ModifiedNamesAppend(before, [OtherVariable(kind, name)], varState);
    ModifiedNamesAppend(before, after, varState);
    assert [OtherVariable(kind, name)][..0] == [];
  }

  /** A list variable missing from the store is reported unless its default is undefined too. */
  lemma MissingListVariable(name: string, defaultValue: VariableValue, varState: VariableStateMap)
    requires name !in varState
    ensures ModifiedNames([ListVariable(name, defaultValue)], varState) == (if defaultValue != Undefined then [name] else [])
  {
    assert [ListVariable(name, defaultValue)][..0] == [];
  }

  /** A list variable whose store value is null is never reported, whatever its default. */
  lemma NullListVariableNeverReported(name: string, defaultValue: VariableValue, varState: VariableStateMap)
    requires name in varState && varState[name] == Null
    ensures ModifiedNames([ListVariable(name, defaultValue)], varState) == []
  {
    assert [ListVariable(name, defaultValue)][..0] == [];
  }

  /** A text variable that is missing, or holds no string, reads as empty: reported iff its saved value is not empty. */
  lemma TextVariableWithoutString(name: string, value: string, varState: VariableStateMap)
    requires name !in varState || !varState[name].Text?
    ensures ModifiedNames([TextVariable(name, value)], varState) == (if value != "" then [name] else [])
  {
    assert [TextVariable(name, value)][..0] == [];
  }

  /** Two definitions whose store entries match: the list's default and the text's value agree with the store. */
  lemma ExampleInSync(varState: VariableStateMap)
    requires varState == map["env" := Text("prod"), "filter" := Text("abc")]
    ensures ModifiedNames([ListVariable("env", Text("prod")), TextVariable("filter", "abc")], varState) == []
  {
    var defs := [ListVariable("env", Text("prod")), TextVariable("filter", "abc")];
    assert defs[..1] == [ListVariable("env", Text("prod"))];
    assert defs[..1][..0] == [];
    assert CurrentValue(varState, "env") == Text("prod");
    assert CurrentValue(varState, "filter") == Text("abc");
    assert !IsModified(defs[0], varState) && !IsModified(defs[1], varState);
    assert ModifiedNames(defs[..1], varState) == [];
  }
}
