/** Readers for the two display formatters of the keyboard vocabulary. They
    are not part of the package; they exist to show that Mod.String and
    Key.String lose nothing beyond what they are documented to drop. */
module Inverses {
  import opened Text
  import opened Keyboard

  // ---------------------------------------------------------------------------
  // Reading back Mod.String
  // ---------------------------------------------------------------------------

  /** What a label stands for, if it is one of the modifier labels. */
  function FlagOf(name: string): (f: Option<Mod>)
    ensures f.Some? <==> DisplayRank(name) < |DisplayOrder|
    ensures f.Some? ==> f.value == DisplayOrder[DisplayRank(name)].0
  {
    if name == "control" then Some(ModControl)
    else if name == "shift" then Some(ModShift)
    else if name == "alt" then Some(ModAlt)
    else if name == "super" then Some(ModSuper)
    else None
  }

  /** The bitfield a list of modifier labels stands for; None if one of them
      is not a modifier label. */
  function LabelsToMod(labels: seq<string>): Option<Mod>
  {
    if labels == [] then Some(0)
    else
      var f := FlagOf(labels[0]);
      var rest := LabelsToMod(labels[1..]);
      if f.Some? && rest.Some? then Some(f.value | rest.value) else None
  }

  /** Reads back what Mod.String renders: the inverse of ModString up to the
      bits outside the four modifier bits, which Mod.String does not show. */
  function ParseMod(s: string): Option<Mod>
  {
    if s == "" then Some(0)
    else if |s| >= 2 && s[0] == '[' && s[|s| - 1] == ']' then
      var inner := s[1..|s| - 1];
      if inner == "" then Some(0) else LabelsToMod(Split(inner, '+'))
    else None
  }

  /** The labels map back to the modifier bits of the bitfield. */
  lemma LabelsToModLabels(mod: Mod)
    ensures LabelsToMod(ModLabels(mod)) == Some(mod & ModMask)
  {
    ModLabelsCases(mod);
    var c := Pick(mod, ModControl, "control");
    var s := Pick(mod, ModShift, "shift");
    var a := Pick(mod, ModAlt, "alt");
    var u := Pick(mod, ModSuper, "super");
    assert LabelsToMod(c) == Some(mod & ModControl) by { LabelsToModOne(c); }
    assert LabelsToMod(s) == Some(mod & ModShift) by { LabelsToModOne(s); }
    assert LabelsToMod(a) == Some(mod & ModAlt) by { LabelsToModOne(a); }
    assert LabelsToMod(u) == Some(mod & ModSuper) by { LabelsToModOne(u); }
    LabelsToModAppend(a, u);
    LabelsToModAppend(s, a + u);
    LabelsToModAppend(c, s + (a + u));
  }

  lemma LabelsToModOne(xs: seq<string>)
    requires |xs| <= 1
    ensures LabelsToMod(xs) == if xs == [] then Some(0) else
      match FlagOf(xs[0]) case Some(f) => Some(f) case None => None
  {
  }

  lemma {:induction false} LabelsToModAppend(xs: seq<string>, ys: seq<string>)
    ensures LabelsToMod(xs + ys).Some? <==> LabelsToMod(xs).Some? && LabelsToMod(ys).Some?
    ensures LabelsToMod(xs + ys).Some? ==>
      LabelsToMod(xs + ys).value == LabelsToMod(xs).value | LabelsToMod(ys).value
  {
    if xs == [] {
      assert xs + ys == ys;
    } else {
      assert (xs + ys)[1..] == xs[1..] + ys;
      LabelsToModAppend(xs[1..], ys);
    }
  }

  /** No modifier label contains the separator Mod.String joins them with. */
  lemma ModLabelsWithoutSeparator(mod: Mod)
    ensures forall i :: 0 <= i < |ModLabels(mod)| ==> '+' !in ModLabels(mod)[i]
  {
    ModLabelsExactly(mod);
    var labels := ModLabels(mod);
    forall i | 0 <= i < |labels|
      ensures '+' !in labels[i]
    {
      assert labels[i] in labels;
    }
  }

  /** Reading back a rendering gives the four modifier bits of the bitfield. */
  lemma ParseModString(mod: Mod)
    ensures ParseMod(ModString(mod)) == Some(mod & ModMask)
  {
    if mod != 0 {
      var labels := ModLabels(mod);
      var j := Join(labels, "+");
      var s := ModString(mod);
      assert s == "[" + j + "]";
      assert s[1..|s| - 1] == j;
      LabelsToModLabels(mod);
      if labels == [] {
        ModLabelsLowBits(mod);
      } else {
        ModLabelsWithoutSeparator(mod);
        SplitJoin(labels, '+');
      }
    }
  }

  /** Two bitfields render alike exactly when both or neither are zero and
      they agree on the four modifier bits. */
  lemma ModStringInjective(a: Mod, b: Mod)
    ensures ModString(a) == ModString(b) <==> ((a == 0) == (b == 0) && a & ModMask == b & ModMask)
  {
    ParseModString(a);
    ParseModString(b);
    ModStringIgnoresHighBits(a);
    ModStringIgnoresHighBits(b);
  }


  // ---------------------------------------------------------------------------
  // Reading back Key.String
  // ---------------------------------------------------------------------------

  /** No label of `m` equals a label of `n` under a different code. */
  ghost predicate LabelsDistinct(m: map<Key, string>, n: map<Key, string>)
  {
    forall a, b :: a in m && b in n && m[a] == n[b] ==> a == b
  }

  lemma LabelsDistinctUnion(a: map<Key, string>, b: map<Key, string>)
    requires LabelsDistinct(a, a) && LabelsDistinct(b, b) && LabelsDistinct(a, b)
    ensures LabelsDistinct(a + b, a + b)
  {
  }

  lemma LabelsDistinctUnionLeft(a: map<Key, string>, b: map<Key, string>, c: map<Key, string>)
    requires LabelsDistinct(a, c) && LabelsDistinct(b, c)
    ensures LabelsDistinct(a + b, c)
  {
  }

  lemma PrintableLabelsDistinct()
    ensures LabelsDistinct(PrintableKeyNames, PrintableKeyNames)
  {
  }

  lemma EditingLabelsDistinct()
    ensures LabelsDistinct(EditingKeyNames, EditingKeyNames)
  {
  }

  lemma LockLabelsDistinct()
    ensures LabelsDistinct(LockKeyNames, LockKeyNames)
  {
  }

  lemma FunctionLabelsDistinct()
    ensures LabelsDistinct(FunctionKeyNames, FunctionKeyNames)
  {
  }

  lemma KeypadLabelsDistinct()
    ensures LabelsDistinct(KeypadKeyNames, KeypadKeyNames)
  {
  }

  lemma ModifierLabelsDistinct()
    ensures LabelsDistinct(ModifierKeyNames, ModifierKeyNames)
  {
  }

  lemma PrintableEditingLabelsDistinct()
    ensures LabelsDistinct(PrintableKeyNames, EditingKeyNames)
  {
  }

  lemma PrintableLockLabelsDistinct()
    ensures LabelsDistinct(PrintableKeyNames, LockKeyNames)
  {
  }

  lemma EditingLockLabelsDistinct()
    ensures LabelsDistinct(EditingKeyNames, LockKeyNames)
  {
  }

  lemma PrintableFunctionLabelsDistinct()
    ensures LabelsDistinct(PrintableKeyNames, FunctionKeyNames)
  {
  }

  lemma EditingFunctionLabelsDistinct()
    ensures LabelsDistinct(EditingKeyNames, FunctionKeyNames)
  {
  }

  lemma LockFunctionLabelsDistinct()
    ensures LabelsDistinct(LockKeyNames, FunctionKeyNames)
  {
  }

  lemma PrintableKeypadLabelsDistinct()
    ensures LabelsDistinct(PrintableKeyNames, KeypadKeyNames)
  {
  }

  lemma EditingKeypadLabelsDistinct()
    ensures LabelsDistinct(EditingKeyNames, KeypadKeyNames)
  {
  }

  lemma LockKeypadLabelsDistinct()
    ensures LabelsDistinct(LockKeyNames, KeypadKeyNames)
  {
  }

  lemma FunctionKeypadLabelsDistinct()
    ensures LabelsDistinct(FunctionKeyNames, KeypadKeyNames)
  {
  }

  lemma PrintableModifierLabelsDistinct()
    ensures LabelsDistinct(PrintableKeyNames, ModifierKeyNames)
  {
  }

  lemma EditingModifierLabelsDistinct()
    ensures LabelsDistinct(EditingKeyNames, ModifierKeyNames)
  {
  }

  lemma LockModifierLabelsDistinct()
    ensures LabelsDistinct(LockKeyNames, ModifierKeyNames)
  {
  }

  lemma FunctionModifierLabelsDistinct()
    ensures LabelsDistinct(FunctionKeyNames, ModifierKeyNames)
  {
  }

  lemma KeypadModifierLabelsDistinct()
    ensures LabelsDistinct(KeypadKeyNames, ModifierKeyNames)
  {
  }

  /** No two keys of the table share a label. */
  lemma KeyNamesLabelsDistinct()
    ensures LabelsDistinct(KeyNames, KeyNames)
  {
    PrintableLabelsDistinct();
    EditingLabelsDistinct();
    LockLabelsDistinct();
    FunctionLabelsDistinct();
    KeypadLabelsDistinct();
    ModifierLabelsDistinct();
    PrintableEditingLabelsDistinct();
    LabelsDistinctUnion(PrintableKeyNames, EditingKeyNames);
    PrintableLockLabelsDistinct();
    EditingLockLabelsDistinct();
    LabelsDistinctUnionLeft(PrintableKeyNames, EditingKeyNames, LockKeyNames);
    LabelsDistinctUnion(PrintableKeyNames + EditingKeyNames, LockKeyNames);
    PrintableFunctionLabelsDistinct();
    EditingFunctionLabelsDistinct();
    LockFunctionLabelsDistinct();
    LabelsDistinctUnionLeft(PrintableKeyNames, EditingKeyNames, FunctionKeyNames);
    LabelsDistinctUnionLeft(PrintableKeyNames + EditingKeyNames, LockKeyNames, FunctionKeyNames);
    LabelsDistinctUnion(PrintableKeyNames + EditingKeyNames + LockKeyNames, FunctionKeyNames);
    PrintableKeypadLabelsDistinct();
    EditingKeypadLabelsDistinct();
    LockKeypadLabelsDistinct();
    FunctionKeypadLabelsDistinct();
    LabelsDistinctUnionLeft(PrintableKeyNames, EditingKeyNames, KeypadKeyNames);
    LabelsDistinctUnionLeft(PrintableKeyNames + EditingKeyNames, LockKeyNames, KeypadKeyNames);
    LabelsDistinctUnionLeft(PrintableKeyNames + EditingKeyNames + LockKeyNames, FunctionKeyNames, KeypadKeyNames);
    LabelsDistinctUnion(PrintableKeyNames + EditingKeyNames + LockKeyNames + FunctionKeyNames, KeypadKeyNames);
    PrintableModifierLabelsDistinct();
    EditingModifierLabelsDistinct();
    LockModifierLabelsDistinct();
    FunctionModifierLabelsDistinct();
    KeypadModifierLabelsDistinct();
    LabelsDistinctUnionLeft(PrintableKeyNames, EditingKeyNames, ModifierKeyNames);
    LabelsDistinctUnionLeft(PrintableKeyNames + EditingKeyNames, LockKeyNames, ModifierKeyNames);
    LabelsDistinctUnionLeft(PrintableKeyNames + EditingKeyNames + LockKeyNames, FunctionKeyNames, ModifierKeyNames);
    LabelsDistinctUnionLeft(PrintableKeyNames + EditingKeyNames + LockKeyNames + FunctionKeyNames, KeypadKeyNames, ModifierKeyNames);
    LabelsDistinctUnion(PrintableKeyNames + EditingKeyNames + LockKeyNames + FunctionKeyNames + KeypadKeyNames, ModifierKeyNames);
  }

  /** Reads back what Key.String renders against a table: a single character
      from apostrophe to grave accent is that key, a diagnostic carries the
      code in decimal, and a label of the table is the key it names. */
  ghost function ParseKeyWith(names: map<Key, string>, s: string): Option<Key>
  {
    if |s| == 1 && KeyApostrophe <= s[0] as int <= KeyGraveAccent then Some(s[0] as int)
    else if IsUnknownKeyDiagnostic(s) && s[|s| - 1] == ']' then
      ParseDecimal(s[|UnknownKeyPrefix|..|s| - 1])
    else if exists k :: k in names && names[k] == s then
      var k :| k in names && names[k] == s; Some(k)
    else None
  }

  /** The reader for the package's own table. */
  ghost function ParseKey(s: string): Option<Key>
  {
    ParseKeyWith(KeyNames, s)
  }

  /** Against a well-formed table whose labels are distinct, reading back
      the rendering of any key gives that key. */
  lemma ParseKeyStringWith(names: map<Key, string>, key: Key)
    requires WellFormedNames(names) && LabelsDistinct(names, names)
    ensures ParseKeyWith(names, KeyStringWith(names, key)) == Some(key)
  {
    var s := KeyStringWith(names, key);
    KeyStringWithCases(names, key);
    if key in names {
    } else if KeyApostrophe <= key <= KeyGraveAccent {
    } else {
      var d := IntToDecimal(key);
      assert s[|UnknownKeyPrefix|..|s| - 1] == d;
      ParseDecimalRoundTrip(key);
    }
  }

  /** Reading back the rendering of any key gives that key. */
  lemma ParseKeyString(key: Key)
    ensures ParseKey(KeyString(key)) == Some(key)
  {
    KeyNamesWellFormed();
    KeyNamesLabelsDistinct();
    ParseKeyStringWith(KeyNames, key);
  }

  /** Distinct keys never render alike. */
  lemma KeyStringInjective(a: Key, b: Key)
    ensures KeyString(a) == KeyString(b) <==> a == b
  {
    ParseKeyString(a);
    ParseKeyString(b);
  }
}
