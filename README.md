# Keyboard vocabulary of the `we` window-event package

The `we` package reports keyboard events to a program. Its keyboard file
declares four things:

- `Mod`, a bitfield of held modifier keys (shift, control, alt, super).
- `Key`, the GLFW 3.0 key codes.
- The three events `KeyPress`, `KeyRelease` and `KeyRepeat`. Each carries a key
  and a modifier bitfield.
- Two display formatters, `Mod.String` and `Key.String`.

This project models those declarations in Dafny and proves what the two
formatters promise.

- `text.dfy` (module `Text`) re-expresses two pieces of Go's standard library
  that the formatters call:
  - `strings.Join`, with `strings.Split` as its reader;
  - the `%d` verb of `fmt.Sprintf` (`IntToDecimal`), with `ParseDecimal` as
    its reader.

  Each comes with a proof that the reader recovers the input. The third
  library call, Go's conversion of a code to a one-character string, is
  written inline in `Keyboard.KeyStringWith` as `[key as char]`. It is read
  back by the single-character case of `Inverses.ParseKeyWith`.
- `keyboard.dfy` (module `Keyboard`) holds:
  - the modifier bits;
  - `Mod.String`, written twice: as the source's step-by-step method
    (`ModToString`) and as the specification function `ModString`, which the
    method is proved to equal;
  - the 120 key constants;
  - the `keyNames` table;
  - `Key.String` (`KeyString`);
  - the three event records.
- `inverses.dfy` (module `Inverses`) holds readers for both renderings:
  - `ParseMod` reads back `Mod.String`. This shows that the rendering drops
    only the bits above the four modifier bits. The reader also maps "[]"
    to 0, although the rendering itself tells 0 ("") apart from a nonzero
    bitfield with no modifier bit ("[]");
  - `ParseKey` reads back `Key.String`, which shows that distinct keys never
    render alike.

`Mod` is `bv64`. The source declares it over Go's `int`, which is 32 or 64
bits wide depending on the platform. `Mod.String` depends only on whether the
value is zero and on its low four bits. Those agree for any width of at least
four bits, so the choice of 64 bits does not change any rendering. `Key` is an
unbounded `int`, which holds every value of Go's `int` at either width.

## Model

| member | source | states |
|---|---|---|
| Keyboard.ModFlagsAreSingleBits | keyboard.go:12-21 | The four modifier constants are the single bits 1, 2, 4 and 8. They are pairwise disjoint, and together they make up the low four bits. |
| Keyboard.ModToString | keyboard.go:23-41 | The method that tests the bits one by one and appends to a local list returns exactly the specification rendering `ModString`. |
| Keyboard.ModString | keyboard.go:23-41 | The rendering is empty exactly for the zero bitfield; every other bitfield renders as a string in brackets. |
| Keyboard.ModStringZero | keyboard.go:24-26 | `Mod(0)` renders as the empty string. |
| Keyboard.ModLabels | keyboard.go:27-39 | The `mods` slice that `Mod.String` builds, as the filter of the display order over `LabelsFrom`. It has no contract of its own; `Keyboard.ModLabelsCases`, `Keyboard.ModLabelsExactly`, `Keyboard.ModLabelsInDisplayOrder` and `Keyboard.ModLabelsLowBits` carry its properties. |
| Keyboard.ModLabelsCases | keyboard.go:27-39 | The listed labels are, in order: control if its bit is set, then shift, then alt, then super. |
| Keyboard.ModLabelsExactly | keyboard.go:28-39 | Each of the four labels is listed exactly when its bit is set, and nothing else is listed. |
| Keyboard.ModLabelsInDisplayOrder | keyboard.go:28-39 | Listed labels always follow the order control, shift, alt, super, so none is listed twice. |
| Keyboard.ModLabelsLowBits | keyboard.go:28-39 | The listed labels depend only on the four modifier bits, and the list is empty exactly when none of them is set. |
| Keyboard.ModStringIgnoresHighBits | keyboard.go:23-41 | With any modifier bit set, higher bits do not change the rendering. A nonzero bitfield with no modifier bit renders as `[]`. |
| Keyboard.ModStringControlShift | keyboard.go:28-40 | Shift together with control renders as `[control+shift]`, with control first. |
| Keyboard.ModLabelsAll | keyboard.go:28-39 | With all four bits set, the labels are listed as control, shift, alt, super. |
| Keyboard.JoinAllLabels | keyboard.go:40 | Joining the four labels with `+` gives `control+shift+alt+super`. |
| Keyboard.ModStringAll | keyboard.go:23-41 | All four modifiers render as `[control+shift+alt+super]`. |
| Keyboard.ModStringSingleBits | keyboard.go:23-41 | Alt alone renders as `[alt]`. Bit 16 alone renders as `[]`. |
| Keyboard.PrintableKeyNamesWellFormed | keyboard.go:183-185 | Each printable key named in the table (space and the two world keys) lies outside the printable range 39..96. Each label is bracketed and does not begin like an unknown-key diagnostic. |
| Keyboard.PrintableKeyCodesWithin | keyboard.go:56-105 | The named printable keys have codes from space (32) to world 2 (162). |
| Keyboard.EditingKeyNamesWellFormed | keyboard.go:186-199 | The labels from escape to end are well-formed key labels, and those codes lie outside 39..96. |
| Keyboard.EditingKeyCodesWithin | keyboard.go:109-122 | The codes from escape to end lie in 256..269. |
| Keyboard.LockKeyNamesWellFormed | keyboard.go:200-204 | The labels of the lock keys, print screen and pause are well-formed key labels, and those codes lie outside 39..96. |
| Keyboard.LockKeyCodesWithin | keyboard.go:123-127 | The codes from caps lock to pause lie in 280..284. |
| Keyboard.FunctionKeyNamesWellFormed | keyboard.go:205-229 | The labels of F1 to F25 are well-formed key labels, and those codes lie outside 39..96. |
| Keyboard.FunctionKeyCodesWithin | keyboard.go:128-152 | The codes of F1 to F25 lie in 290..314. |
| Keyboard.KeypadKeyNamesWellFormed | keyboard.go:230-246 | The keypad labels are well-formed key labels, and those codes lie outside 39..96. |
| Keyboard.KeypadKeyCodesWithin | keyboard.go:153-169 | The keypad codes lie in 320..336. |
| Keyboard.ModifierKeyNamesWellFormed | keyboard.go:247-255 | The labels of the left and right modifier keys and of menu are well-formed key labels, and those codes lie outside 39..96. |
| Keyboard.ModifierKeyCodesWithin | keyboard.go:170-178 | The codes of the modifier keys and menu lie in 340..348. |
| Keyboard.KeyNamesWellFormed | keyboard.go:182-256 | No key in the whole table lies in 39..96. Every label is a bracketed name that cannot be mistaken for an unknown-key diagnostic. |
| Keyboard.KeyNames | keyboard.go:182-256 | The `keyNames` table. It is a constant with no contract of its own; `Keyboard.KeyNamesWellFormed` and `Inverses.KeyNamesLabelsDistinct` carry its properties. |
| Keyboard.KeyStringWith | keyboard.go:258-267 | The three steps of `Key.String` against a given table: lookup, then the range test for 39..96, then the diagnostic. It requires a well-formed table and returns a non-empty result. |
| Keyboard.KeyString | keyboard.go:258-267 | `Key.String` is defined for every key and never returns the empty string. |
| Keyboard.KeyStringWithCases | keyboard.go:258-267 | For any well-formed table, a key renders in one of three ways: its label if it is named, its own character if it lies in 39..96, or otherwise `[unknown key: N]`. A single character appears exactly in the second case, and a diagnostic exactly in the third. |
| Keyboard.KeyStringNamed | keyboard.go:259-262 | A key in the table renders as its label, which is bracketed. |
| Keyboard.KeyStringPrintable | keyboard.go:263-265 | Every code from apostrophe to grave accent, both included, renders as the one character with that code. |
| Keyboard.KeyStringUnknown | keyboard.go:259-266 | A key renders as an unknown-key diagnostic exactly when it is neither named nor in 39..96. That diagnostic is `[unknown key: ` followed by the decimal code and `]`. |
| Keyboard.KeyStringSingleCharacter | keyboard.go:263-265 | A rendering is one character long exactly when the code lies in 39..96. |
| Keyboard.KeyNamesSpace | keyboard.go:183 | The table maps space to `[space]`. |
| Keyboard.KeyNamesF1 | keyboard.go:205 | The table maps F1 to `[f1]`. |
| Keyboard.KeyStringNamedSamples | keyboard.go:259-262 | Space (32) renders as `[space]` and F1 (290) as `[f1]`. |
| Keyboard.KeyStringPrintableSamples | keyboard.go:263-265 | 39 renders as `'`, 96 as a backtick, and 65 as `A`. |
| Keyboard.UnnamedSamples | keyboard.go:182-256 | Codes 38, 97, 9999 and -1 are not in the table. |
| Keyboard.KeyStringBesidePrintable | keyboard.go:266 | 38 renders as `[unknown key: 38]` and 97 as `[unknown key: 97]`. |
| Keyboard.KeyStringFarOutside | keyboard.go:266 | 9999 renders as `[unknown key: 9999]` and -1 as `[unknown key: -1]`. |
| Text.Join | keyboard.go:40 | `strings.Join`. It has no contract of its own; `Text.SplitJoin` proves that `Split` reads its result back into the parts. |
| Text.SplitJoin | keyboard.go:40 | Splitting a `strings.Join` result on its separator gives back the parts, provided there is at least one part and no part contains the separator. |
| Text.IntToDecimal | keyboard.go:266 | The `%d` rendering is never empty and starts with `-` exactly for negative values. A non-negative value renders as digits only, a negative one as `-` followed by digits. The magnitude never has a leading zero, and 0 renders as `0`. |
| Text.ParseDecimalRoundTrip | keyboard.go:266 | Reading back the `%d` rendering of any integer gives that integer. |
| Text.IntToDecimalInjective | keyboard.go:266 | Distinct integers have distinct `%d` renderings. |
| Text.DecimalSamples | keyboard.go:266 | `%d` renders 38, 97, 9999 and -1 as `38`, `97`, `9999` and `-1`. |
| Inverses.FlagOf | keyboard.go:28-39 | A label reads back as a modifier bit exactly when it is one of the four labels, and then it reads as that label's bit. |
| Inverses.LabelsToModLabels | keyboard.go:28-39 | Reading back the listed labels gives the bitfield's four modifier bits. |
| Inverses.ModLabelsWithoutSeparator | keyboard.go:28-40 | No listed label contains the `+` that joins them. |
| Inverses.ParseModString | keyboard.go:23-41 | Reading back the rendering of any bitfield gives its four modifier bits. |
| Inverses.ModStringInjective | keyboard.go:23-41 | Two bitfields render alike exactly when both or neither are zero and they agree on the four modifier bits. |
| Inverses.KeyNamesLabelsDistinct | keyboard.go:182-256 | No two keys of the table share a label. |
| Inverses.ParseKeyStringWith | keyboard.go:258-267 | For any well-formed table with distinct labels, reading back a key's rendering gives that key. |
| Inverses.ParseKeyString | keyboard.go:258-267 | Reading back the rendering of any key gives that key. |
| Inverses.KeyStringInjective | keyboard.go:258-267 | Two keys render alike exactly when they are the same key. |

## Left out

- `mouse.go`, `we.go` and `window.go` are not part of this model. They hold
  plain declarations with no behaviour:
  - mouse.go has the `Button` constants and the mouse event structs;
  - we.go has the empty `Event` interface;
  - window.go has the `Close` and `Resize` structs.
- `KeyRune` is not part of this model. It is an event carrying a Unicode
  character, and no formatter uses it.
- The three key events are modelled as plain records. The source attaches no
  behaviour to them, so nothing is proved about them.
- Keyboard.KeyNames: the source writes `keyNames` as a single map literal.
  Here it is the union of six group maps, taken in the source's order. The
  groups' codes are disjoint, so the union is the same map.
- Keyboard.KeyString: Go's `string(key)` encodes a code as UTF-8. Only codes
  39..96 reach that conversion, and each of those is one ASCII character, so
  the model writes the result as `[key as char]`.
- Keyboard.KeyString: `Key` is an unbounded integer rather than Go's 32- or
  64-bit `int`. It covers every value of either width, and the extra values
  all render as diagnostics, because the table spans only 32..348.
- Inverses.ParseKey and Inverses.ParseKeyWith are ghost functions. They choose
  the key behind a label by a specification-level choice instead of a search.
  They exist only to state the round trip.
- The formatters do no I/O. Nothing is left out for clocks, randomness or
  concurrency.
