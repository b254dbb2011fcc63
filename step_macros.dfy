/** The macros step: the optional G-code macros, each a string. */
module MacrosStep {
  import opened Wrappers
  import opened Strings
  import opened JsonTree
  import opened StepCommon
  import Wizard

  function NotStringError(key: string): string
  {
    key + ": Macro content must be a string"
  }

  /** The error of one macro entry: a value that is not a string. Object
      entries are never `undefined` here, so every entry is checked. */
  function MacroErrors(e: Field): seq<string>
  {
    if !e.val.JStr? then [NotStringError(e.key)] else []
  }

  /** `validateStep`'s errors: the entries of a truthy `macros`, in order. */
  function MacrosErrors(config: Json): seq<string>
  {
    FlatMap(EntriesOf(Prop(config, "macros")), MacroErrors)
  }

  /** `validateStep`: valid exactly when nothing was reported. */
  method ValidateStep(config: Json) returns (errors: seq<string>, isValid: bool)
    ensures errors == MacrosErrors(config)
    ensures isValid <==> errors == []
  {
    errors := [];
    var macros := Prop(config, "macros");
    ghost var all := EntriesOf(macros);
    if Present(macros) {
      errors := ForEachPush(errors, SpreadFields(macros.value), MacroErrors);
    } else {
      assert all == [];
    }
    isValid := |errors| == 0;
  }

  /** The step is valid exactly when every macro is a string; each
      non-string macro is named. */
  lemma ValidIff(config: Json, i: nat)
    ensures var entries := EntriesOf(Prop(config, "macros"));
            (MacrosErrors(config) == [] <==> forall j :: 0 <= j < |entries| ==> entries[j].val.JStr?)
            && (i < |entries| && !entries[i].val.JStr? ==> NotStringError(entries[i].key) in MacrosErrors(config))
  {
    var entries := EntriesOf(Prop(config, "macros"));
    FlatMapEmpty(entries, MacroErrors);
    FlatMapHas(entries, MacroErrors, if i < |entries| then NotStringError(entries[i].key) else "");
  }

  /** `handleMacroChange(macroKey, value)`. */
  function HandleMacroChange(config: Json, key: string, value: string): seq<Field>
  {
    FieldEdit(config, "macros", key, JStr(value))
  }

  /** The text the editor shows for a macro: a string value, else blank. */
  function MacroShown(config: Json, key: string): (shown: string)
    ensures Get(Prop(config, "macros"), key).Some? && Get(Prop(config, "macros"), key).value.JStr? ==>
              shown == Get(Prop(config, "macros"), key).value.s
    ensures !(Get(Prop(config, "macros"), key).Some? && Get(Prop(config, "macros"), key).value.JStr?) ==> shown == ""
  {
    var raw := Get(Prop(config, "macros"), key);
    if raw.Some? && raw.value.JStr? then raw.value.s else ""
  }

  /** A non-empty value is stored under its key in the copied macros, the
      other macros are copied, and the update carries them. */
  lemma MacroEditSets(config: Json, key: string, value: string, other: string)
    requires value != ""
    ensures var before := SpreadFields(Or(Prop(config, "macros"), EmptyObj));
            var fs := Put(before, key, JStr(value));
            HandleMacroChange(config, key, value) == [Field("macros", JObj(fs))]
            && Lookup(fs, key) == Some(JStr(value))
            && (other != key ==> Lookup(fs, other) == Lookup(before, other))
  {
    var before := SpreadFields(Or(Prop(config, "macros"), EmptyObj));
    var fs := Put(before, key, JStr(value));
    LookupPut(before, key, JStr(value), key);
    LookupPut(before, key, JStr(value), other);
    assert fs != [] by { assert HasKey(fs, key); }
  }

  /** Typing a non-empty macro and merging the update into the wizard's
      configuration makes the editor show it; the other macros read as
      before. */
  lemma EditThenShown(config: seq<Field>, key: string, value: string, other: string)
    requires value != ""
    ensures var merged := Merge(config, HandleMacroChange(JObj(config), key, value));
            MacroShown(JObj(merged), key) == value
            && (other != key ==> Get(Prop(JObj(merged), "macros"), other)
                                 == Lookup(SpreadFields(Or(Prop(JObj(config), "macros"), EmptyObj)), other))
  {
    var before := SpreadFields(Or(Prop(JObj(config), "macros"), EmptyObj));
    var fs := Put(before, key, JStr(value));
    MacroEditSets(JObj(config), key, value, other);
    var update := [Field("macros", JObj(fs))];
    Wizard.UpdateReplaces(config, update, "macros");
    var merged := Merge(config, update);
    assert Prop(JObj(merged), "macros") == Some(JObj(fs));
    GetObject(fs, key);
    GetObject(fs, other);
  }
}
