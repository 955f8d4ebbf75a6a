/** Keyboard vocabulary of the window-event package: the modifier-key
    bitfield with its display formatter, the GLFW 3.0 key codes with their
    name table and display formatter, and the three key events. */
module Keyboard {
  import opened Text

  // ---------------------------------------------------------------------------
  // Modifier keys
  // ---------------------------------------------------------------------------

  /** A bitfield of modifier keys. The source declares it over Go's `int`,
      which is 32 or 64 bits wide depending on the platform. Mod.String looks
      only at whether the value is zero and at its four low bits, which agree
      at either width, so the model fixes 64 bits; `&` acts on the
      two's-complement bits, which is exactly what bv64 gives. */
  type Mod = bv64

  /** A string that opens with `[` and closes with `]`. */
  predicate Bracketed(s: string)
  {
    |s| >= 2 && s[0] == '[' && s[|s| - 1] == ']'
  }

  /** One bit per modifier, assigned by `1 << iota` in declaration order. */
  const ModShift: Mod := 1 << 0
  const ModControl: Mod := 1 << 1
  const ModAlt: Mod := 1 << 2
  const ModSuper: Mod := 1 << 3

  /** The four modifier bits together. */
  const ModMask: Mod := ModShift | ModControl | ModAlt | ModSuper

  /** The modifiers with their labels, in the order Mod.String lists them
      (which is not the order of their bits). */
  const DisplayOrder: seq<(Mod, string)> :=
    [(ModControl, "control"), (ModShift, "shift"), (ModAlt, "alt"), (ModSuper, "super")]

  /** The labels of the entries of `order` from position `i` on whose bit
      is set in `mod`, in the order of `order`. */
  function LabelsFrom(mod: Mod, order: seq<(Mod, string)>, i: nat): seq<string>
    requires i <= |order|
    decreases |order| - i
  {
    if i == |order| then []
    else (if mod & order[i].0 != 0 then [order[i].1] else []) + LabelsFrom(mod, order, i + 1)
  }

  /** The labels Mod.String puts between the brackets. */
  function ModLabels(mod: Mod): seq<string>
  {
    LabelsFrom(mod, DisplayOrder, 0)
  }

  /** Mod.String as a specification: nothing for the empty bitfield,
      otherwise the `+`-joined labels of the set modifier bits in brackets. */
  function ModString(mod: Mod): (r: string)
    ensures r == "" <==> mod == 0
    ensures mod != 0 ==> Bracketed(r)
  {
    if mod == 0 then "" else "[" + Join(ModLabels(mod), "+") + "]"
  }

  /** A label's position in the display order (4 for a string that is not a
      modifier label). */
  function DisplayRank(name: string): (k: nat)
    ensures k <= |DisplayOrder|
    ensures k < |DisplayOrder| ==> DisplayOrder[k].1 == name
  {
    if name == "control" then 0
    else if name == "shift" then 1
    else if name == "alt" then 2
    else if name == "super" then 3
    else 4
  }

  /** Mod.String as the source computes it: four tests that each append a
      label to a local list, then a join inside brackets. */
  method ModToString(mod: Mod) returns (s: string)
    ensures s == ModString(mod)
  {
    if mod == 0 {
      return "";
    }
    var mods: seq<string> := [];
    if mod & ModControl != 0 {
      mods := mods + ["control"];
    }
    if mod & ModShift != 0 {
      mods := mods + ["shift"];
    }
    if mod & ModAlt != 0 {
      mods := mods + ["alt"];
    }
    if mod & ModSuper != 0 {
      mods := mods + ["super"];
    }
    ModLabelsCases(mod);
    assert mods == ModLabels(mod);
    s := "[" + Join(mods, "+") + "]";
  }

  /** `[name]` if `flag` is set in `mod`, otherwise nothing. */
  function Pick(mod: Mod, flag: Mod, name: string): seq<string>
  {
    if mod & flag != 0 then [name] else []
  }

  /** ModLabels unfolded over the four entries of the display order. */
  lemma ModLabelsCases(mod: Mod)
    ensures ModLabels(mod) ==
      Pick(mod, ModControl, "control") + (Pick(mod, ModShift, "shift") +
      (Pick(mod, ModAlt, "alt") + Pick(mod, ModSuper, "super")))
  {
    var o := DisplayOrder;
    assert LabelsFrom(mod, o, 3) == Pick(mod, ModSuper, "super") + [];
    assert LabelsFrom(mod, o, 2) == Pick(mod, ModAlt, "alt") + LabelsFrom(mod, o, 3);
    assert LabelsFrom(mod, o, 1) == Pick(mod, ModShift, "shift") + LabelsFrom(mod, o, 2);
  }

  /** The modifier constants are four distinct single bits, and together they
      make up the low four bits. */
  lemma ModFlagsAreSingleBits()
    ensures ModShift == 1 && ModControl == 2 && ModAlt == 4 && ModSuper == 8
    ensures forall i :: 0 <= i < |DisplayOrder| ==>
      DisplayOrder[i].0 != 0 && DisplayOrder[i].0 & (DisplayOrder[i].0 - 1) == 0
    ensures forall i, j :: 0 <= i < j < |DisplayOrder| ==> DisplayOrder[i].0 & DisplayOrder[j].0 == 0
    ensures ModMask == 15
  {
  }

  /** The empty bitfield renders as the empty string. */
  lemma ModStringZero()
    ensures ModString(0) == ""
  {
  }

  /** Each label is listed exactly when its bit is set, and nothing else is
      listed. */
  lemma ModLabelsExactly(mod: Mod)
    ensures "control" in ModLabels(mod) <==> mod & ModControl != 0
    ensures "shift" in ModLabels(mod) <==> mod & ModShift != 0
    ensures "alt" in ModLabels(mod) <==> mod & ModAlt != 0
    ensures "super" in ModLabels(mod) <==> mod & ModSuper != 0
    ensures forall l :: l in ModLabels(mod) ==> DisplayRank(l) < |DisplayOrder|
  {
    ModLabelsCases(mod);
  }

  /** The labels always come in the order control, shift, alt, super,
      whichever bits are set; in particular no label is listed twice. */
  lemma ModLabelsInDisplayOrder(mod: Mod)
    ensures forall i, j :: 0 <= i < j < |ModLabels(mod)| ==>
      DisplayRank(ModLabels(mod)[i]) < DisplayRank(ModLabels(mod)[j])
  {
    ModLabelsCases(mod);
  }

  /** Only the four modifier bits decide which labels are listed. */
  lemma ModLabelsLowBits(mod: Mod)
    ensures ModLabels(mod) == ModLabels(mod & ModMask)
    ensures ModLabels(mod) == [] <==> mod & ModMask == 0
  {
    ModLabelsCases(mod);
    ModLabelsCases(mod & ModMask);
  }

  /** Bits outside the four modifier bits are ignored: with any modifier bit
      set the rendering is that of the modifier bits alone, and a nonzero
      bitfield without any of them renders as an empty bracket pair. */
  lemma ModStringIgnoresHighBits(mod: Mod)
    ensures mod & ModMask != 0 ==> ModString(mod) == ModString(mod & ModMask)
    ensures mod != 0 && mod & ModMask == 0 ==> ModString(mod) == "[]"
  {
    ModLabelsLowBits(mod);
  }

  /** Shift together with Control renders with control first. */
  lemma ModStringControlShift()
    ensures ModString(ModShift | ModControl) == "[control+shift]"
  {
    ModLabelsCases(ModShift | ModControl);
    assert ModLabels(ModShift | ModControl) == ["control", "shift"];
    assert ["control", "shift"][1..] == ["shift"];
  }

  /** All four modifiers render in display order whatever order they are
      combined in. */
  lemma ModStringAll()
    ensures ModString(ModSuper | ModAlt | ModShift | ModControl) == "[control+shift+alt+super]"
  {
    var m := ModSuper | ModAlt | ModShift | ModControl;
    ModLabelsAll();
    JoinAllLabels();
    var j := Join(ModLabels(m), "+");
    assert ModString(m) == "[" + j + "]";
  }

  lemma JoinAllLabels()
    ensures Join(["control", "shift", "alt", "super"], "+") == "control+shift+alt+super"
  {
  }

  lemma ModLabelsAll()
    ensures ModSuper | ModAlt | ModShift | ModControl != 0
    ensures ModLabels(ModSuper | ModAlt | ModShift | ModControl) == ["control", "shift", "alt", "super"]
  {
    var m := ModSuper | ModAlt | ModShift | ModControl;
    ModLabelsCases(m);
    assert Pick(m, ModControl, "control") == ["control"];
    assert Pick(m, ModShift, "shift") == ["shift"];
    assert Pick(m, ModAlt, "alt") == ["alt"];
    assert Pick(m, ModSuper, "super") == ["super"];
  }

  /** A lone modifier renders as its label alone, and a bit above the
      modifier bits renders as an empty bracket pair. */
  lemma ModStringSingleBits()
    ensures ModString(ModAlt) == "[alt]"
    ensures ModString(16) == "[]"
  {
    ModLabelsCases(ModAlt);
    ModLabelsCases(16);
  }

  // ---------------------------------------------------------------------------
  // Key codes
  // ---------------------------------------------------------------------------

  /** A keyboard key, over Go's `int`. The codes are those of GLFW 3.0, which
      follow the USB HID Usage Tables v1.12 (pages 53-60) rearranged so that
      printable keys sit at their 7-bit ASCII code and function keys at 256
      and above. */
  type Key = int

  const KeySpace: Key := 32
  const KeyApostrophe: Key := 39
  const KeyComma: Key := 44
  const KeyMinus: Key := 45
  const KeyPeriod: Key := 46
  const KeySlash: Key := 47
  const Key0: Key := 48
  const Key1: Key := 49
  const Key2: Key := 50
  const Key3: Key := 51
  const Key4: Key := 52
  const Key5: Key := 53
  const Key6: Key := 54
  const Key7: Key := 55
  const Key8: Key := 56
  const Key9: Key := 57
  const KeySemicolon: Key := 59
  const KeyEqual: Key := 61
  const KeyA: Key := 65
  const KeyB: Key := 66
  const KeyC: Key := 67
  const KeyD: Key := 68
  const KeyE: Key := 69
  const KeyF: Key := 70
  const KeyG: Key := 71
  const KeyH: Key := 72
  const KeyI: Key := 73
  const KeyJ: Key := 74
  const KeyK: Key := 75
  const KeyL: Key := 76
  const KeyM: Key := 77
  const KeyN: Key := 78
  const KeyO: Key := 79
  const KeyP: Key := 80
  const KeyQ: Key := 81
  const KeyR: Key := 82
  const KeyS: Key := 83
  const KeyT: Key := 84
  const KeyU: Key := 85
  const KeyV: Key := 86
  const KeyW: Key := 87
  const KeyX: Key := 88
  const KeyY: Key := 89
  const KeyZ: Key := 90
  const KeyLeftBracket: Key := 91
  const KeyBackslash: Key := 92
  const KeyRightBracket: Key := 93
  const KeyGraveAccent: Key := 96
  const KeyWorld1: Key := 161
  const KeyWorld2: Key := 162
  const KeyEscape: Key := 256
  const KeyEnter: Key := 257
  const KeyTab: Key := 258
  const KeyBackspace: Key := 259
  const KeyInsert: Key := 260
  const KeyDelete: Key := 261
  const KeyRight: Key := 262
  const KeyLeft: Key := 263
  const KeyDown: Key := 264
  const KeyUp: Key := 265
  const KeyPageUp: Key := 266
  const KeyPageDown: Key := 267
  const KeyHome: Key := 268
  const KeyEnd: Key := 269
  const KeyCapsLock: Key := 280
  const KeyScrollLock: Key := 281
  const KeyNumLock: Key := 282
  const KeyPrintScreen: Key := 283
  const KeyPause: Key := 284
  const KeyF1: Key := 290
  const KeyF2: Key := 291
  const KeyF3: Key := 292
  const KeyF4: Key := 293
  const KeyF5: Key := 294
  const KeyF6: Key := 295
  const KeyF7: Key := 296
  const KeyF8: Key := 297
  const KeyF9: Key := 298
  const KeyF10: Key := 299
  const KeyF11: Key := 300
  const KeyF12: Key := 301
  const KeyF13: Key := 302
  const KeyF14: Key := 303
  const KeyF15: Key := 304
  const KeyF16: Key := 305
  const KeyF17: Key := 306
  const KeyF18: Key := 307
  const KeyF19: Key := 308
  const KeyF20: Key := 309
  const KeyF21: Key := 310
  const KeyF22: Key := 311
  const KeyF23: Key := 312
  const KeyF24: Key := 313
  const KeyF25: Key := 314
  const KeyKp0: Key := 320
  const KeyKp1: Key := 321
  const KeyKp2: Key := 322
  const KeyKp3: Key := 323
  const KeyKp4: Key := 324
  const KeyKp5: Key := 325
  const KeyKp6: Key := 326
  const KeyKp7: Key := 327
  const KeyKp8: Key := 328
  const KeyKp9: Key := 329
  const KeyKpDecimal: Key := 330
  const KeyKpDivide: Key := 331
  const KeyKpMultiply: Key := 332
  const KeyKpSubtract: Key := 333
  const KeyKpAdd: Key := 334
  const KeyKpEnter: Key := 335
  const KeyKpEqual: Key := 336
  const KeyLeftShift: Key := 340
  const KeyLeftControl: Key := 341
  const KeyLeftAlt: Key := 342
  const KeyLeftSuper: Key := 343
  const KeyRightShift: Key := 344
  const KeyRightControl: Key := 345
  const KeyRightAlt: Key := 346
  const KeyRightSuper: Key := 347
  const KeyMenu: Key := 348

  /** Labels of the printable keys shown by name: space and the two non-US keys. */
  const PrintableKeyNames: map<Key, string> := map[
    KeySpace := "[space]",
    KeyWorld1 := "[world 1]",
    KeyWorld2 := "[world 2]"
  ]

  /** Labels of escape, enter, tab, the editing keys, the arrows and the paging keys. */
  const EditingKeyNames: map<Key, string> := map[
    KeyEscape := "[escape]",
    KeyEnter := "[enter]",
    KeyTab := "[tab]",
    KeyBackspace := "[backspace]",
    KeyInsert := "[insert]",
    KeyDelete := "[delete]",
    KeyRight := "[right]",
    KeyLeft := "[left]",
    KeyDown := "[down]",
    KeyUp := "[up]",
    KeyPageUp := "[page up]",
    KeyPageDown := "[page down]",
    KeyHome := "[home]",
    KeyEnd := "[end]"
  ]

  /** Labels of the lock keys, print screen and pause. */
  const LockKeyNames: map<Key, string> := map[
    KeyCapsLock := "[caps lock]",
    KeyScrollLock := "[scroll lock]",
    KeyNumLock := "[num lock]",
    KeyPrintScreen := "[print screen]",
    KeyPause := "[pause]"
  ]

  /** Labels of the function keys F1 to F25. */
  const FunctionKeyNames: map<Key, string> := map[
    KeyF1 := "[f1]",
    KeyF2 := "[f2]",
    KeyF3 := "[f3]",
    KeyF4 := "[f4]",
    KeyF5 := "[f5]",
    KeyF6 := "[f6]",
    KeyF7 := "[f7]",
    KeyF8 := "[f8]",
    KeyF9 := "[f9]",
    KeyF10 := "[f10]",
    KeyF11 := "[f11]",
    KeyF12 := "[f12]",
    KeyF13 := "[f13]",
    KeyF14 := "[f14]",
    KeyF15 := "[f15]",
    KeyF16 := "[f16]",
    KeyF17 := "[f17]",
    KeyF18 := "[f18]",
    KeyF19 := "[f19]",
    KeyF20 := "[f20]",
    KeyF21 := "[f21]",
    KeyF22 := "[f22]",
    KeyF23 := "[f23]",
    KeyF24 := "[f24]",
    KeyF25 := "[f25]"
  ]

  /** Labels of the numeric keypad. */
  const KeypadKeyNames: map<Key, string> := map[
    KeyKp0 := "[kp 0]",
    KeyKp1 := "[kp 1]",
    KeyKp2 := "[kp 2]",
    KeyKp3 := "[kp 3]",
    KeyKp4 := "[kp 4]",
    KeyKp5 := "[kp 5]",
    KeyKp6 := "[kp 6]",
    KeyKp7 := "[kp 7]",
    KeyKp8 := "[kp 8]",
    KeyKp9 := "[kp 9]",
    KeyKpDecimal := "[kp decimal]",
    KeyKpDivide := "[kp divide]",
    KeyKpMultiply := "[kp multiply]",
    KeyKpSubtract := "[kp subtract]",
    KeyKpAdd := "[kp add]",
    KeyKpEnter := "[kp enter]",
    KeyKpEqual := "[kp equal]"
  ]

  /** Labels of the left and right modifier keys and the menu key. */
  const ModifierKeyNames: map<Key, string> := map[
    KeyLeftShift := "[left shift]",
    KeyLeftControl := "[left control]",
    KeyLeftAlt := "[left alt]",
    KeyLeftSuper := "[left super]",
    KeyRightShift := "[right shift]",
    KeyRightControl := "[right control]",
    KeyRightAlt := "[right alt]",
    KeyRightSuper := "[right super]",
    KeyMenu := "[menu]"
  ]

  /** keyNames: the display label of every key that is not shown as its own
      character. The source writes it as one map literal; it is assembled here
      from the groups above, in the source's order, which gives the same map. */
  const KeyNames: map<Key, string> :=
    PrintableKeyNames + EditingKeyNames + LockKeyNames + FunctionKeyNames + KeypadKeyNames + ModifierKeyNames

  /** How the diagnostic for a key code that is neither named nor printable
      begins. */
  const UnknownKeyPrefix: string := "[unknown key: "

  /** A diagnostic for an unknown key: the prefix and at least one more
      character. */
  predicate IsUnknownKeyDiagnostic(s: string)
  {
    |s| > |UnknownKeyPrefix| && s[..|UnknownKeyPrefix|] == UnknownKeyPrefix
  }

  /** The form of every label in the name table: a bracketed name that does
      not begin with "[un" as the diagnostic for an unknown key does. */
  predicate IsKeyLabel(s: string)
  {
    |s| >= 3 && Bracketed(s) && !(s[1] == 'u' && s[2] == 'n')
  }

  /** What every entry of the name table satisfies: the code lies outside the
      range from apostrophe to grave accent (it is space, a world key or a
      function key), and the label has the form of a key label. */
  ghost predicate WellFormedNames(names: map<Key, string>)
  {
    forall k :: k in names ==>
      && (k < KeyApostrophe || KeyGraveAccent < k)
      && (k == KeySpace || KeyWorld1 <= k <= KeyMenu)
      && IsKeyLabel(names[k])
  }

  /** All codes of a group of the table lie in [lo, hi]. */
  ghost predicate CodesWithin(names: map<Key, string>, lo: Key, hi: Key)
  {
    forall k :: k in names ==> lo <= k <= hi
  }

  lemma WellFormedNamesUnion(a: map<Key, string>, b: map<Key, string>)
    requires WellFormedNames(a) && WellFormedNames(b)
    ensures WellFormedNames(a + b)
  {
  }

  lemma PrintableKeyNamesWellFormed()
    ensures WellFormedNames(PrintableKeyNames)
  {
  }

  lemma PrintableKeyCodesWithin()
    ensures CodesWithin(PrintableKeyNames, KeySpace, KeyWorld2)
  {
  }

  lemma EditingKeyNamesWellFormed()
    ensures WellFormedNames(EditingKeyNames)
  {
  }

  lemma EditingKeyCodesWithin()
    ensures CodesWithin(EditingKeyNames, KeyEscape, KeyEnd)
  {
  }

  lemma LockKeyNamesWellFormed()
    ensures WellFormedNames(LockKeyNames)
  {
  }

  lemma LockKeyCodesWithin()
    ensures CodesWithin(LockKeyNames, KeyCapsLock, KeyPause)
  {
  }

  lemma FunctionKeyNamesWellFormed()
    ensures WellFormedNames(FunctionKeyNames)
  {
  }

  lemma FunctionKeyCodesWithin()
    ensures CodesWithin(FunctionKeyNames, KeyF1, KeyF25)
  {
  }

  lemma KeypadKeyNamesWellFormed()
    ensures WellFormedNames(KeypadKeyNames)
  {
  }

  lemma KeypadKeyCodesWithin()
    ensures CodesWithin(KeypadKeyNames, KeyKp0, KeyKpEqual)
  {
  }

  lemma ModifierKeyNamesWellFormed()
    ensures WellFormedNames(ModifierKeyNames)
  {
  }

  lemma ModifierKeyCodesWithin()
    ensures CodesWithin(ModifierKeyNames, KeyLeftShift, KeyMenu)
  {
  }

  /** No named key lies in the range from apostrophe to grave accent, and
      every label is bracketed and differs from an unknown-key diagnostic. */
  lemma KeyNamesWellFormed()
    ensures WellFormedNames(KeyNames)
  {
    PrintableKeyNamesWellFormed();
    EditingKeyNamesWellFormed();
    LockKeyNamesWellFormed();
    FunctionKeyNamesWellFormed();
    KeypadKeyNamesWellFormed();
    ModifierKeyNamesWellFormed();
    WellFormedNamesUnion(PrintableKeyNames, EditingKeyNames);
    WellFormedNamesUnion(PrintableKeyNames + EditingKeyNames, LockKeyNames);
    WellFormedNamesUnion(PrintableKeyNames + EditingKeyNames + LockKeyNames, FunctionKeyNames);
    WellFormedNamesUnion(PrintableKeyNames + EditingKeyNames + LockKeyNames + FunctionKeyNames, KeypadKeyNames);
    WellFormedNamesUnion(
      PrintableKeyNames + EditingKeyNames + LockKeyNames + FunctionKeyNames + KeypadKeyNames, ModifierKeyNames);
  }

  /** Key.String against a given name table: the key's label from the
      table; otherwise, for a code from apostrophe to grave accent, the
      character with that code; otherwise a diagnostic carrying the code in
      decimal. */
  function KeyStringWith(names: map<Key, string>, key: Key): (r: string)
    requires WellFormedNames(names)
    ensures |r| >= 1
  {
    if key in names then names[key]
    else if KeyApostrophe <= key <= KeyGraveAccent then [key as char]
    else UnknownKeyPrefix + IntToDecimal(key) + "]"
  }

  /** Key.String: the rendering against the package's name table. */
  function KeyString(key: Key): (r: string)
    ensures |r| >= 1
  {
    KeyNamesWellFormed();
    KeyStringWith(KeyNames, key)
  }

  /** The three ways a key renders, against any well-formed table; the three
      forms of result cannot be mistaken for one another. */
  lemma KeyStringWithCases(names: map<Key, string>, key: Key)
    requires WellFormedNames(names)
    ensures key in names ==>
      KeyStringWith(names, key) == names[key] && IsKeyLabel(KeyStringWith(names, key))
    ensures KeyApostrophe <= key <= KeyGraveAccent ==> KeyStringWith(names, key) == [key as char]
    ensures |KeyStringWith(names, key)| == 1 <==> KeyApostrophe <= key <= KeyGraveAccent
    ensures IsUnknownKeyDiagnostic(KeyStringWith(names, key)) <==>
      key !in names && (key < KeyApostrophe || KeyGraveAccent < key)
    ensures key !in names && (key < KeyApostrophe || KeyGraveAccent < key) ==>
      KeyStringWith(names, key) == UnknownKeyPrefix + IntToDecimal(key) + "]"
  {
  }

  /** A named key renders as its label from the table, a bracketed name. */
  lemma KeyStringNamed(key: Key)
    requires key in KeyNames
    ensures KeyString(key) == KeyNames[key]
    ensures Bracketed(KeyString(key))
  {
    KeyNamesWellFormed();
    KeyStringWithCases(KeyNames, key);
  }

  /** Every code from apostrophe to grave accent, the ends included, renders
      as the one character with that code: the table names none of them. */
  lemma KeyStringPrintable(key: Key)
    requires KeyApostrophe <= key <= KeyGraveAccent
    ensures KeyString(key) == [key as char]
  {
    KeyNamesWellFormed();
    KeyStringWithCases(KeyNames, key);
  }

  /** A key renders as a diagnostic exactly when it is neither named nor
      printable, and the diagnostic carries the code in decimal. */
  lemma KeyStringUnknown(key: Key)
    ensures IsUnknownKeyDiagnostic(KeyString(key)) <==>
      key !in KeyNames && (key < KeyApostrophe || KeyGraveAccent < key)
    ensures key !in KeyNames && (key < KeyApostrophe || KeyGraveAccent < key) ==>
      KeyString(key) == UnknownKeyPrefix + IntToDecimal(key) + "]"
  {
    KeyNamesWellFormed();
    KeyStringWithCases(KeyNames, key);
  }

  /** Exactly the printable codes render as a single character. */
  lemma KeyStringSingleCharacter(key: Key)
    ensures |KeyString(key)| == 1 <==> KeyApostrophe <= key <= KeyGraveAccent
  {
    KeyNamesWellFormed();
    KeyStringWithCases(KeyNames, key);
  }

  /** Looking a code up in a union of two groups of the table. */
  lemma UnionLookup(a: map<Key, string>, b: map<Key, string>, k: Key)
    ensures k in a + b <==> k in a || k in b
    ensures k in b ==> (a + b)[k] == b[k]
    ensures k in a && k !in b ==> (a + b)[k] == a[k]
  {
  }

  /** The entries of space and of the first function key in their groups. */
  lemma GroupSamples()
    ensures KeySpace in PrintableKeyNames && PrintableKeyNames[KeySpace] == "[space]"
    ensures KeyF1 in FunctionKeyNames && FunctionKeyNames[KeyF1] == "[f1]"
  {
  }

  /** The table entry of space, looked up through all the groups the table
      is assembled from. */
  lemma KeyNamesSpace()
    ensures KeySpace in KeyNames && KeyNames[KeySpace] == "[space]"
  {
    GroupSamples();
    EditingKeyCodesWithin();
    LockKeyCodesWithin();
    FunctionKeyCodesWithin();
    KeypadKeyCodesWithin();
    ModifierKeyCodesWithin();
    var m1 := PrintableKeyNames;
    var m2 := m1 + EditingKeyNames;
    var m3 := m2 + LockKeyNames;
    var m4 := m3 + FunctionKeyNames;
    var m5 := m4 + KeypadKeyNames;
    UnionLookup(m1, EditingKeyNames, KeySpace);
    UnionLookup(m2, LockKeyNames, KeySpace);
    UnionLookup(m3, FunctionKeyNames, KeySpace);
    UnionLookup(m4, KeypadKeyNames, KeySpace);
    UnionLookup(m5, ModifierKeyNames, KeySpace);
  }

  /** The table entry of the first function key. */
  lemma KeyNamesF1()
    ensures KeyF1 in KeyNames && KeyNames[KeyF1] == "[f1]"
  {
    GroupSamples();
    KeypadKeyCodesWithin();
    ModifierKeyCodesWithin();
    var m3 := PrintableKeyNames + EditingKeyNames + LockKeyNames;
    var m4 := m3 + FunctionKeyNames;
    var m5 := m4 + KeypadKeyNames;
    UnionLookup(m3, FunctionKeyNames, KeyF1);
    UnionLookup(m4, KeypadKeyNames, KeyF1);
    UnionLookup(m5, ModifierKeyNames, KeyF1);
  }

  /** Renderings of two named keys: space and the first function key. */
  lemma KeyStringNamedSamples()
    ensures KeyString(KeySpace) == "[space]"
    ensures KeyString(KeyF1) == "[f1]"
  {
    KeyNamesSpace();
    KeyNamesF1();
    KeyStringNamed(KeySpace);
    KeyStringNamed(KeyF1);
  }

  /** The ends of the printable range and a letter render as themselves. */
  lemma KeyStringPrintableSamples()
    ensures KeyString(KeyApostrophe) == "'"
    ensures KeyString(KeyGraveAccent) == "`"
    ensures KeyString(KeyA) == "A"
  {
    KeyStringPrintable(KeyApostrophe);
    KeyStringPrintable(KeyGraveAccent);
    KeyStringPrintable(KeyA);
  }

  /** Codes next to the printable range, far beyond the table and negative
      are not named. */
  lemma UnnamedSamples()
    ensures 38 !in KeyNames && 97 !in KeyNames && 9999 !in KeyNames && -1 !in KeyNames
  {
    KeyNamesWellFormed();
  }

  /** The codes just below and just above the printable range render as
      diagnostics. */
  lemma KeyStringBesidePrintable()
    ensures KeyString(38) == "[unknown key: 38]"
    ensures KeyString(97) == "[unknown key: 97]"
  {
    UnnamedSamples();
    KeyStringUnknown(38);
    KeyStringUnknown(97);
    DecimalSamples();
  }

  /** A code far beyond the table and a negative code render as
      diagnostics. */
  lemma KeyStringFarOutside()
    ensures KeyString(9999) == "[unknown key: 9999]"
    ensures KeyString(-1) == "[unknown key: -1]"
  {
    UnnamedSamples();
    KeyStringUnknown(9999);
    KeyStringUnknown(-1);
    DecimalSamples();
  }

  // ---------------------------------------------------------------------------
  // Key events
  // ---------------------------------------------------------------------------

  /** A keyboard key was pressed while the given modifiers were held. */
  datatype KeyPress = KeyPress(key: Key, mod: Mod)

  /** A keyboard key was released while the given modifiers were held. */
  datatype KeyRelease = KeyRelease(key: Key, mod: Mod)

  /** A keyboard key was held down until it repeated. */
  datatype KeyRepeat = KeyRepeat(key: Key, mod: Mod)
}
