/** What the wizard's steps share: error lists gathered entry by entry, the
    JavaScript tests they apply to optional values, the spread-and-assign
    updates their handlers send, and the pin-conflict errors. */
module StepCommon {
  import opened Wrappers
  import opened Strings
  import opened JsonTree
  import opened PinUtils
  import opened PinManager

  // ---------------------------------------------------------------------
  // Error lists

  /** The messages `f` gives for each of `xs`, in order. */
  function FlatMap<T>(xs: seq<T>, f: T -> seq<string>): seq<string>
    decreases |xs|
  {
    if xs == [] then [] else FlatMap(xs[..|xs| - 1], f) + f(xs[|xs| - 1])
  }

  /** No message at all exactly when no element gives one. */
  lemma {:induction false} FlatMapEmpty<T>(xs: seq<T>, f: T -> seq<string>)
    ensures FlatMap(xs, f) == [] <==> forall i :: 0 <= i < |xs| ==> f(xs[i]) == []
    decreases |xs|
  {
    if xs != [] {
      var init := xs[..|xs| - 1];
      FlatMapEmpty(init, f);
      assert forall i :: 0 <= i < |init| ==> init[i] == xs[i];
    }
  }

  /** Every message of every element is in the list, and nothing else. */
  lemma {:induction false} FlatMapHas<T>(xs: seq<T>, f: T -> seq<string>, m: string)
    ensures m in FlatMap(xs, f) <==> exists i :: 0 <= i < |xs| && m in f(xs[i])
    decreases |xs|
  {
    if xs != [] {
      var n := |xs| - 1;
      var init := xs[..n];
      FlatMapHas(init, f, m);
      assert forall i :: 0 <= i < |init| ==> init[i] == xs[i];
      if m in f(xs[n]) {
        assert 0 <= n < |xs| && m in f(xs[n]);
      }
      if i :| 0 <= i < |xs| && m in f(xs[i]) {
        if i < n {
          assert m in f(init[i]);
        }
      }
    }
  }

  /** One element more appends its messages. */
  lemma FlatMapSnoc<T>(xs: seq<T>, i: nat, f: T -> seq<string>)
    requires i < |xs|
    ensures FlatMap(xs[..i + 1], f) == FlatMap(xs[..i], f) + f(xs[i])
  {
    assert xs[..i + 1][..i] == xs[..i];
  }

  /** `xs.forEach(x => ...)` whose callback pushes the messages `f(x)`. */
  method ForEachPush<T>(errors: seq<string>, xs: seq<T>, f: T -> seq<string>) returns (errors': seq<string>)
    ensures errors' == errors + FlatMap(xs, f)
  {
    errors' := errors;
    for i := 0 to |xs|
      invariant errors' == errors + FlatMap(xs[..i], f)
    {
      FlatMapSnoc(xs, i, f);
      errors' := errors' + f(xs[i]);
    }
    assert xs[..|xs|] == xs;
  }

  /** `messages.forEach(m => errors.push(prefix + m))` as a list. */
  function Prefixed(prefix: string, messages: seq<string>): (r: seq<string>)
    ensures |r| == |messages|
    ensures forall j :: 0 <= j < |messages| ==> r[j] == prefix + messages[j]
  {
    seq(|messages|, j requires 0 <= j < |messages| => prefix + messages[j])
  }

  /** The `forEach` that pushes a prefixed copy of each message. */
  method PushPrefixed(errors: seq<string>, prefix: string, messages: seq<string>) returns (errors': seq<string>)
    ensures errors' == errors + Prefixed(prefix, messages)
  {
    errors' := errors;
    for j := 0 to |messages|
      invariant errors' == errors + Prefixed(prefix, messages[..j])
    {
      assert Prefixed(prefix, messages[..j + 1]) == Prefixed(prefix, messages[..j]) + [prefix + messages[j]];
      errors' := errors' + [prefix + messages[j]];
    }
    assert messages[..|messages|] == messages;
  }

  // ---------------------------------------------------------------------
  // JavaScript tests on optional values

  /** `!x || x <= 0`: missing, falsy, or a number that is not positive. */
  predicate NotPositive(o: Option<Json>)
  {
    !Present(o) || AtMost(o, 0.0)
  }

  /** `x && x <= 0`: set, but not positive. */
  predicate SetButNotPositive(o: Option<Json>)
  {
    Present(o) && AtMost(o, 0.0)
  }

  /** On numbers the two tests read as they look: a number fails
      `NotPositive` exactly when it is positive, and only a non-zero number
      that is negative is set but not positive. */
  lemma NumberTests(x: real)
    ensures !NotPositive(Some(JNum(x))) <==> x > 0.0
    ensures SetButNotPositive(Some(JNum(x))) <==> x < 0.0
    ensures NotPositive(None) && !SetButNotPositive(None)
  {
  }

  /** On text the tests compare the number the text reads as (see
      `JsonTree.StringToNumber`: `"1e2"` is 100, `"0x10"` is 16): a
      non-empty text fails `NotPositive` exactly when that number is
      positive, and is set but not positive exactly when it is not. */
  lemma TextTests(u: string, x: real)
    requires u != "" && StringToNumber(u) == Finite(x)
    ensures !NotPositive(Some(JStr(u))) <==> x > 0.0
    ensures SetButNotPositive(Some(JStr(u))) <==> x <= 0.0
  {
    ComparesAs(Some(JStr(u)), x, 0.0);
  }

  /** A number wrapped in a one-item array is truthy, even when it is
      zero, and compares as the number. */
  lemma ArrayTests(x: real)
    ensures NotPositive(Some(JArr([JNum(x)]))) <==> x <= 0.0
    ensures SetButNotPositive(Some(JArr([JNum(x)]))) <==> x <= 0.0
  {
    SingleItem(JNum(x));
  }

  /** `o || d`. */
  function Or(o: Option<Json>, d: Json): (r: Json)
    ensures Present(o) ==> r == o.value
    ensures !Present(o) ==> r == d
  {
    if Present(o) then o.value else d
  }

  /** `{ ...o, [k]: v }`. */
  function SpreadSet(o: Option<Json>, k: string, v: Json): seq<Field>
  {
    Put(SpreadOf(o), k, v)
  }

  /** The spread assigns `k` and copies every other key of `o`. */
  lemma SpreadSetLookup(o: Option<Json>, k: string, v: Json, k': string)
    ensures Lookup(SpreadSet(o, k, v), k') == if k' == k then Some(v) else Lookup(SpreadOf(o), k')
  {
    LookupPut(SpreadOf(o), k, v, k');
  }

  /** `{ ...o, [k]: { ...o?.[k], [f]: v } }`: one field of one entry set. */
  function SetIn(o: Option<Json>, k: string, f: string, v: Json): seq<Field>
  {
    SpreadSet(o, k, JObj(SpreadSet(Get(o, k), f, v)))
  }

  /** The nested spread changes the entry `k` in its field `f` only: `f`
      reads back `v`, the entry's other fields and every other entry are
      copied. */
  lemma SetInLookup(o: Option<Json>, k: string, f: string, v: Json, k': string, f': string)
    ensures Lookup(SetIn(o, k, f, v), k) == Some(JObj(SpreadSet(Get(o, k), f, v)))
    ensures k' != k ==> Lookup(SetIn(o, k, f, v), k') == Lookup(SpreadOf(o), k')
    ensures Lookup(SpreadSet(Get(o, k), f, v), f') == if f' == f then Some(v) else Lookup(SpreadOf(Get(o, k)), f')
  {
    SpreadSetLookup(o, k, JObj(SpreadSet(Get(o, k), f, v)), k);
    SpreadSetLookup(o, k, JObj(SpreadSet(Get(o, k), f, v)), k');
    SpreadSetLookup(Get(o, k), f, v, f');
  }

  /** On an object, reading through `Get` is reading its fields. */
  lemma GetObject(fs: seq<Field>, k: string)
    ensures Get(Some(JObj(fs)), k) == Lookup(fs, k)
    ensures SpreadOf(Some(JObj(fs))) == fs
  {
  }

  const NoAxesError: string := "No axes configured. Please configure axes in the Mechanics step first."

  /** `!config.axes || Object.keys(config.axes).length === 0`. */
  predicate NoAxes(config: Json)
  {
    var axes := Prop(config, "axes");
    !Present(axes) || KeysOf(axes.value) == []
  }

  // ---------------------------------------------------------------------
  // Selections

  /** `xs.includes(x) ? xs.filter(y => y !== x) : [...xs, x]`. */
  function Toggle(xs: seq<string>, x: string): (r: seq<string>)
    ensures x in xs ==> r == Without(xs, x)
    ensures x !in xs ==> r == xs + [x]
  {
    if x in xs then Without(xs, x) else xs + [x]
  }

  /** A toggle flips the membership of its element and keeps every other. */
  lemma ToggleFlips(xs: seq<string>, x: string, y: string)
    ensures x in Toggle(xs, x) <==> x !in xs
    ensures y != x ==> (y in Toggle(xs, x) <==> y in xs)
  {
  }

  /** Toggling twice gives back the selection when the element was not in
      it; from a selection holding it, toggling twice moves it last. */
  lemma ToggleTwice(xs: seq<string>, x: string)
    ensures x !in xs ==> Toggle(Toggle(xs, x), x) == xs
  {
    if x !in xs {
      WithoutLast(xs, x);
    }
  }

  lemma {:induction false} WithoutLast(xs: seq<string>, x: string)
    requires x !in xs
    ensures Without(xs + [x], x) == xs
  {
    if xs != [] {
      assert (xs + [x])[1..] == xs[1..] + [x];
      WithoutLast(xs[1..], x);
    }
  }

  // ---------------------------------------------------------------------
  // Clearing or setting one field

  /** `value === '' ? delete fs[k] : fs[k] = value`. */
  function SetOrDelete(fs: seq<Field>, k: string, value: Json): seq<Field>
  {
    if value == JStr("") then Remove(fs, k) else Put(fs, k, value)
  }

  /** The empty string clears the field, any other value is stored; the
      other fields are left alone. */
  lemma SetOrDeleteLookup(fs: seq<Field>, k: string, value: Json, k': string)
    ensures Lookup(SetOrDelete(fs, k, value), k') ==
            if k' != k then Lookup(fs, k') else if value == JStr("") then None else Some(value)
  {
    if value == JStr("") {
      LookupRemove(fs, k, k');
    } else {
      LookupPut(fs, k, value, k');
    }
  }

  /** `...(Object.keys(fs).length > 0 ? { [key]: fs } : {})`. */
  function UpdateIfAny(key: string, fs: seq<Field>): (r: seq<Field>)
    ensures |fs| > 0 ==> r == [Field(key, JObj(fs))]
    ensures |fs| == 0 ==> r == []
  {
    if |Keys(fs)| > 0 then [Field(key, JObj(fs))] else []
  }

  /** `const current = config[key] || {}; const updated = { ...current };`
      then the field cleared or set, and the update carrying `key` only when
      something is left. */
  function FieldEdit(config: Json, key: string, field: string, value: Json): seq<Field>
  {
    UpdateIfAny(key, SetOrDelete(SpreadFields(Or(Prop(config, key), EmptyObj)), field, value))
  }

  /** When the edit leaves a field, the update is the block with the field
      cleared or set and every other field copied; when it leaves none, the
      update is empty. */
  lemma FieldEditEffect(config: Json, key: string, field: string, value: Json, f: string)
    ensures var fs := SetOrDelete(SpreadFields(Or(Prop(config, key), EmptyObj)), field, value);
            FieldEdit(config, key, field, value) == (if fs == [] then [] else [Field(key, JObj(fs))])
            && Lookup(fs, f) == if f != field then Lookup(SpreadFields(Or(Prop(config, key), EmptyObj)), f)
                                else if value == JStr("") then None else Some(value)
  {
    SetOrDeleteLookup(SpreadFields(Or(Prop(config, key), EmptyObj)), field, JStr(""), f);
    SetOrDeleteLookup(SpreadFields(Or(Prop(config, key), EmptyObj)), field, value, f);
  }

  /** Clearing the only field of a block sends the empty update, so the
      wizard's shallow merge keeps the block with its old field: the last
      field of a block cannot be cleared. */
  lemma ClearingLastFieldKept(config: seq<Field>, key: string, field: string, v: Json)
    requires Lookup(config, key) == Some(JObj([Field(field, v)]))
    ensures FieldEdit(JObj(config), key, field, JStr("")) == []
    ensures Merge(config, FieldEdit(JObj(config), key, field, JStr(""))) == config
  {
    var fs := [Field(field, v)];
    assert Prop(JObj(config), key) == Some(JObj(fs));
    assert Present(Some(JObj(fs)));
    assert Remove(fs, field) == Remove(fs[1..], field) == [];
  }

  // ---------------------------------------------------------------------
  // Pin conflicts

  /** `Pin ${pin} is used by multiple fields: ${usedBy.join(', ')}`. */
  function ConflictMessage(pin: string, usedBy: seq<string>): string
  {
    "Pin " + pin + " is used by multiple fields: " + Join(usedBy, ", ")
  }

  /** One message for each pin of `c`, in order, naming all of its users. */
  function MessagesOf(c: Assignments): (r: seq<string>)
    ensures |r| == |c.order|
    ensures forall i :: 0 <= i < |c.order| ==> r[i] == ConflictMessage(c.order[i], SourcesOf(c, c.order[i]))
  {
    seq(|c.order|, i requires 0 <= i < |c.order| => ConflictMessage(c.order[i], SourcesOf(c, c.order[i])))
  }

  /** The messages for the configuration's conflicts, in the order they
      were recorded. */
  function ConflictMessages(config: Json): (r: seq<string>)
  {
    MessagesOf(ConflictsOf(config))
  }

  /** The conflict loop the UART and SD steps open with: nothing without a
      conflict, one message per conflict otherwise. */
  method PushConflicts(config: Json) returns (errors: seq<string>)
    ensures errors == if HasPinConflicts(config) then ConflictMessages(config) else []
  {
    errors := [];
    var conflicts := GetPinConflicts(config);
    if |conflicts.order| > 0 {
      errors := PushMessages(conflicts);
    }
  }

  /** `Object.entries(pinConflicts).forEach(...)`: one push per pin. */
  method PushMessages(conflicts: Assignments) returns (errors: seq<string>)
    ensures errors == MessagesOf(conflicts)
  {
    errors := [];
    for i := 0 to |conflicts.order|
      invariant errors == MessagesOf(conflicts)[..i]
    {
      var pin := conflicts.order[i];
      assert MessagesOf(conflicts)[..i + 1] == MessagesOf(conflicts)[..i] + [ConflictMessage(pin, SourcesOf(conflicts, pin))];
      errors := errors + [ConflictMessage(pin, SourcesOf(conflicts, pin))];
    }
    assert MessagesOf(conflicts)[..|conflicts.order|] == MessagesOf(conflicts);
  }

  /** Each conflict message names a pin two or more fields use, with every
      one of those fields. */
  lemma ConflictMessagesMeaning(config: Json, i: nat)
    requires i < |ConflictMessages(config)|
    ensures var p := ConflictsOf(config).order[i];
            ConflictMessages(config)[i] == ConflictMessage(p, SourcesOf(AssignmentsOf(config), p))
            && |SourcesOf(AssignmentsOf(config), p)| > 1
  {
    var c := ConflictsOf(config);
    var p := c.order[i];
    assert p in c.order;
    ConflictsMeaning(config, p);
  }
}
