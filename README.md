# boardgen in Dafny

boardgen turns JSON board manifests into pictures and documents of a
development board. This project models its core and states what those
parts promise:

- **Manifest store** (`Cache`, `Merge`). Manifests of boards, shapes and
  templates are looked up in an ordered list of directories per kind.
  The first directory that has the file wins, and a hit is memoised.
  A board's `_base` manifests are deep-merged (`merge_dicts`) underneath
  it.
- **Variables** (`Vars`, `Mixins`). `${KEY}` placeholders are replaced
  pass after pass, then `<A:B:T:F>` tokens are evaluated. Objects have an
  id (`fullid`) and variables.
- **Board post-processing** (`CoreBoard`, `Pinout`, `Flash`, `PcbBuild`).
  `Core.get_board` merges each pin's IC map entry into its roles and
  splits the `ARD` role into `ARD_D` and `ARD_A`. It parses the flash
  table into regions with shared hex widths. It completes the board's
  `Pcb` with variables, pads and shape trees. `Core.build_labels` places
  one pin label per pad and folds their boxes into one.
- **Shapes** (`Builder`, `Shapes`, `Labels`). Shape data is
  deserialised into a tree of rectangles, circles, texts and groups. This
  step covers namespacing ids, scoping variables, applying presets and
  building repeated groups. The tree has a bounding box, supports
  search by id or by id path, and moves as a whole. A pin label infers
  an I/O role and lays out one sub-label per role text.
- **README writer** (`ReadmeParts`, `ReadmeWriter`). These are Markdown
  builders, a table padded to its widest cells, and the README of a
  board: its specification with I/O counts, the Arduino pin map in
  numeric order, and a flash map with `(reserved)` gaps.
- **Pin-table writer** (`VariantParts`, `VariantWriter`). These build
  the pin records and sections of an Arduino variant header and format
  them as aligned C.
- **Editor helpers** (`PluginUtils`). `find_marker` names the dotted
  path of the key or string holding the editor's marker character, and
  `jsonwalk` follows such a path back down.

Python dicts keep insertion order, so they are association lists
(`seq<Field>`) here, updated in place or appended to as Python does.
Where the source mutates a value that no one else holds (a dict, a
shape tree), the model returns the new value. Where the source keeps
state in an object (the manifest cache, `Core`, a `Label`, a `Pcb`, the
README and variant builders), the model is a class whose methods are
proved against the specification functions. Errors are `Result`s named
after the Python exception they model (`TypeError`, `ValueError`,
`KeyError`, `AttributeError`).

### Behaviour that is easy to misread

- `merge_dicts` concatenates lists; it does not replace them
  (`boardgen/utils.py:52-55`).
- Presets are applied with `data |= preset`. Preset keys override the
  shape's own keys, and the `preset`/`presets` keys stay in the data
  (`boardgen/shapes/base.py:84-88`). As everywhere `|=` is used, the right
  side may also be a list of key-value pairs, which are assigned in order.
- I/O role inference tries PWR/GND first, then PWM, then NC, then an
  existing IO, then GPIO, and falls back to NULL
  (`boardgen/shapes/label/label.py:28-44`).

## Model

| member | source | states |
|---|---|---|
| Vars.Placeholder | boardgen/utils.py:22 | a placeholder starts with `${` |
| Vars.Substitute | boardgen/utils.py:19-26 | a successful substitution loop leaves no `${` in the text; it fails only with `ValueError` (a pass that changed nothing) or by running out of fuel |
| Vars.RunVar | boardgen/utils.py:18-32 | the `while` loop of passes, each a `for` loop over the variables, followed by the `for` loop over the conditionals, gives exactly `Var` |
| Vars.VarUnchanged | boardgen/utils.py:20-31 | text with no `${` and no conditional is returned unchanged, for every set of variables |
| Vars.PassAbsent | boardgen/utils.py:21-22 | a pass in which no placeholder of any variable occurs leaves the text unchanged |
| Vars.MissingVariable | boardgen/utils.py:21-25 | with `${` present and no variable's placeholder in the text, `var` raises `ValueError` |
| Vars.SelfReference | boardgen/utils.py:21-25 | the self-reference `A = "${A}"` is reported as a missing variable (`ValueError`) |
| Vars.GrowingVariable | boardgen/utils.py:20-26 | `A = "x${A}"` never reaches a text without `${`: the model runs out of fuel for every fuel, where the source loops forever |
| Vars.FieldUntil | boardgen/utils.py:10 | a `(.+?)` field that is found is non-empty and free of its terminator, and the rest is shorter than the input |
| Vars.MatchAt | boardgen/utils.py:10 | a match of `<(.+?):(.+?):(.+?):(.+?)>` is a valid conditional, and the text after it is shorter than the input |
| Vars.MatchOf | boardgen/utils.py:10 | the text of every valid conditional is recognised again, with the text after it left over |
| Vars.NoTernaries | boardgen/utils.py:27 | text without `<` holds no conditional |
| Vars.TernariesAfterPrefix | boardgen/utils.py:27 | text without `<` before a conditional is skipped by the `findall` scan |
| Vars.TernaryInText | boardgen/utils.py:27-31 | a conditional becomes its T field when A and B agree after `strip()`, and its F field otherwise; the text around it stays |
| Vars.NoRescan | boardgen/utils.py:27-31 | conditionals are found once, before any is replaced: a conditional that a replacement completes stays in the result unevaluated |
| Vars.PlaceholderFromTernary | boardgen/utils.py:20-31 | the substitution runs before the conditionals, so a conditional can put `${` back into the result |
| Merge.MergeDicts | boardgen/utils.py:49-63 | a type mismatch where `d1` is not `None` raises `TypeError`, which is the only error; a result has the type of `d2` |
| Merge.CopyItems | boardgen/utils.py:55 | the copies of `d2`'s items are as many as the items; the only error is `TypeError` |
| Merge.MergeFields | boardgen/utils.py:59-60 | the key-by-key loop fails only with `TypeError` |
| Merge.CopyIsIdentity | boardgen/utils.py:52-62 | `merge_dicts(None, x)` of a well-formed `x` gives a value equal to `x` |
| Merge.CopyItemsIsIdentity | boardgen/utils.py:55 | copying a list's well-formed items gives the items back |
| Merge.CopyFieldsIsIdentity | boardgen/utils.py:57-60 | copying fields whose keys are new appends them unchanged, in order |
| Merge.MergeWellFormed | boardgen/utils.py:49-63 | merging well-formed values gives a value whose dicts all have unique keys |
| Merge.MergeFieldsWellFormed | boardgen/utils.py:59-60 | the dict loop keeps the keys of the result unique |
| Merge.ListsConcatenate | boardgen/utils.py:52-55 | two lists concatenate: `d1`'s items followed by `d2`'s, so the length is `len(d1) + len(d2)` |
| Merge.SelfMergeDoublesLists | boardgen/utils.py:52-55 | merging any list of well-formed items with an equal copy of itself gives the list twice over, so a non-empty list is not left as it was |
| Merge.MergeFieldsLookup | boardgen/utils.py:56-60 | keys only in `d1` keep their value, every key of `d2` is present afterwards, and a scalar of `d2` overwrites |
| Merge.DictMerge | boardgen/utils.py:56-60 | the same facts for `merge_dicts` called on two dicts |
| Merge.MismatchInsideDict | boardgen/utils.py:50-60 | for any two dicts, a key whose values are an `int` and a `float` makes the whole merge a `TypeError` |
| Mixins.GetVar | boardgen/mixins.py:11-12 | the value is `None` exactly when the name is not a variable; otherwise it is that variable's value |
| Mixins.FullId | boardgen/mixins.py:21-30 | `fullid` is the id, else the name, else the `NAME` variable, each followed by the suffix; a `NAME` that is not a string is a `TypeError`; it is `None` exactly when all three are missing |
| Mixins.FullIdEndsWithSuffix | boardgen/mixins.py:23-29 | with a suffix, the full id is the id without a suffix, followed by `.` and the suffix |
| Cache.Find | boardgen/core/cache.py:34-41 | the search over the directories finds nothing exactly when no directory has the file |
| Cache.FindFirst | boardgen/core/cache.py:35-40 | the first directory having the file supplies its content; later directories are not consulted |
| Cache.LoadJsonHit | boardgen/core/cache.py:32-33 | a memoised entry is returned without looking at any directory or file |
| Cache.LoadJsonFirstDir | boardgen/core/cache.py:34-40 | on a miss, the file of the earliest directory having it is returned and memoised |
| Cache.LoadJsonMissing | boardgen/core/cache.py:34-41 | a file no directory has gives `None`, and nothing is memoised |
| Cache.LoadJsonRepeat | boardgen/core/cache.py:31-41 | asking again gives the same answer and changes the memo no further |
| Cache.LoadJsonKeeps | boardgen/core/cache.py:39 | `load_json` only adds memo entries; existing ones keep their values |
| Cache.LoadJsonConsistent | boardgen/core/cache.py:31-41 | while the directories stay the same, the memo agrees with the directory search, so every answer is the search's |
| Cache.LoadJsonWellFormed | boardgen/core/cache.py:31-41 | files with unique dict keys give answers and memo entries with unique dict keys |
| Cache.BasePath | boardgen/core/cache.py:47 | `join("_base", name)`: an absolute name replaces the prefix, any other name is put under `_base/` |
| Cache.HasBase | boardgen/core/cache.py:54 | `"_base" in manifest` is key membership for a dict and a `TypeError` for values `in` does not apply to |
| Cache.BaseList | boardgen/core/cache.py:55-57 | a list of bases is itself; any other value becomes a one-element list |
| Cache.MergeBases | boardgen/core/cache.py:59-62 | the base loop fails only with `TypeError` |
| Cache.MergeBasesKeeps | boardgen/core/cache.py:59-62 | the base loop only adds memo entries |
| Cache.MergeBasesType | boardgen/core/cache.py:59-62 | the bases always merge into a dict |
| Cache.OneBase | boardgen/core/cache.py:61-62 | one string base is loaded from `_base/` and merged into the result |
| Cache.LoadBoardMissing | boardgen/core/cache.py:53-54 | a board no directory has fails with `TypeError` (from `"_base" in None`), and nothing is memoised |
| Cache.LoadBoardRepeat | boardgen/core/cache.py:51-66 | a loaded board is memoised, and loading it again returns it unchanged |
| Cache.LoadBoardNoBase | boardgen/core/cache.py:53-66 | a manifest without `_base` is returned, and memoised, as it is |
| Cache.LoadBoardOneBase | boardgen/core/cache.py:54-64 | a single string `_base` is handled like a one-element list: the base is merged into `{}`, then the board over it |
| Cache.BoardOverBases | boardgen/core/cache.py:59-64 | the board is merged last: its scalars win over the bases, and keys only the bases have keep the bases' values |
| Cache.RetryAfterFailure | boardgen/core/cache.py:38-66 | `load_json` memoises the raw manifest under the same key as `load_board`, so after a failed merge the next `load_board` returns the raw manifest without its bases |
| Cache.LoadBoardWellFormed | boardgen/core/cache.py:50-66 | the board returned, and everything memoised, has unique dict keys |
| Cache.CoreCache.constructor | boardgen/core/cache.py:10-21 | a store starts with the given directories and files and an empty memo |
| Cache.CoreCache.ListJson | boardgen/core/cache.py:23-29 | the names listed are exactly the globbed file stems of every directory of the kind |
| Cache.CoreCache.LoadJson | boardgen/core/cache.py:31-41 | the memo check and the directory loop give exactly `LoadJsonOf`'s answer and memo |
| Cache.CoreCache.LoadBoardBase | boardgen/core/cache.py:46-48 | the base is loaded from the boards under `BasePath(name)` |
| Cache.CoreCache.LoadBoard | boardgen/core/cache.py:50-66 | the memo check, the base loop and the final merge give exactly `LoadBoardOf`'s answer and memo |
| CoreBoard.Prepended | boardgen/core/core.py:90-95 | the custom directories of a kind come first, in their order, followed by the old ones; the other kinds keep theirs |
| CoreBoard.BareStringIsOneDir | boardgen/core/core.py:83-88 | a bare string argument is one directory, which is then searched first |
| CoreBoard.CustomDirsFirst | boardgen/core/core.py:90-95 | after prepending, a file that a custom directory has comes from the first custom directory having it |
| CoreBoard.CustomDirsFallBack | boardgen/core/core.py:90-95 | a file that no custom directory has is found as before |
| CoreBoard.AsWrittenDropsRoles | boardgen/core/core.py:103-108 | as written, a given preset table is merged and then `AttributeError` is raised, so a role only the custom roles define is missing afterwards |
| CoreBoard.AsWrittenFails | boardgen/core/core.py:103-108 | as written, the call succeeds exactly when no table is given; otherwise it raises `AttributeError` |
| CoreBoard.AddJsonLookup | boardgen/core/core.py:103-108 | as intended, a custom preset, role or flash entry overrides the core's, and every other entry stays |
| CoreBoard.FlashOf | boardgen/core/core.py:188-212 | the flash step leaves the rest of the manifest as it is |
| CoreBoard.PlainManifest | boardgen/core/core.py:153-188 | a manifest without a truthy `pcb` and without a `flash` dict goes through unchanged |
| CoreBoard.NoArdLeft | boardgen/core/core.py:158-186 | after the pinout step no pin has an `ARD` role (even one the IC map brought in), and the pins keep their names |
| CoreBoard.PinArdGone | boardgen/core/core.py:162-186 | one pin's new roles hold no `ARD` |
| CoreBoard.FlashReplaced | boardgen/core/core.py:188-212 | the flash regions replace a `flash` dict, each titled from the core's flash table |
| CoreBoard.ProcessManifest | boardgen/core/core.py:153-212 | the pin loop and the flash loop give exactly `PreparedOf` |
| CoreBoard.BoardOf | boardgen/core/core.py:153 | a failed `load_board` fails `get_board` with its error; a loaded one goes through the manifest steps |
| CoreBoard.Core.constructor | boardgen/core/core.py:37-52 | a core holds its store and its preset, role and flash tables |
| CoreBoard.Core.AddCustomDirs | boardgen/core/core.py:77-95 | each kind's directory list is prepended with its custom directories; the memo is untouched |
| CoreBoard.Core.GetBoard | boardgen/core/core.py:147-212 | the board is loaded into the memo, then its pinout and flash table are processed: the result is `BoardOf` the load |
| CoreBoard.Core.AddCustomJsonAsWritten | boardgen/core/core.py:97-108 | the tables and the error are those of `AddJsonAsWritten` |
| CoreBoard.Core.AddCustomJson | boardgen/core/core.py:97-108 | the tables become those of `AddJson`, with no error |
| Pinout.IcMerge | boardgen/core/core.py:162-164 | a falsy IC map, or a dict without the pin's `IC` key, leaves the roles unchanged; the entry found is merged in with the dict update, so an empty list entry changes nothing |
| Pinout.IcEntryOverrides | boardgen/core/core.py:162-164 | the IC map's entry for the pin overrides the roles it names and leaves the others |
| Pinout.Head | boardgen/core/core.py:173 | `function[0]` exists exactly for a non-empty string or list |
| Pinout.ArdValues | boardgen/core/core.py:170-171 | a value that is not a list becomes the one-element list of its `str` |
| Pinout.ClassifyFails | boardgen/core/core.py:172-177 | classification fails exactly when some value has no first element, and then with the first such value's error |
| Pinout.ClassifyMembers | boardgen/core/core.py:172-177 | a value is digital exactly when its first element is `"D"`, analog exactly when it is `"A"` |
| Pinout.ClassifyTwo | boardgen/core/core.py:172-177 | two `"D"` values (or two `"A"` values) give a list of at least two |
| Pinout.ClassifyLoop | boardgen/core/core.py:168-177 | the inner loop computes the classification |
| Pinout.ClassifyPrefixFails | boardgen/core/core.py:172-173 | the first value without a first element fails the whole loop |
| Pinout.RewriteLookup | boardgen/core/core.py:178-186 | after the rewrite `ARD` is gone, `ARD_A`/`ARD_D` hold the first analog/digital value when there is one, and the other roles keep theirs |
| Pinout.ArdOf | boardgen/core/core.py:166-167 | roles without `ARD` are left as they are |
| Pinout.ArdSplit | boardgen/core/core.py:166-186 | a successful split leaves at most one digital and one analog value; `ARD` is removed, `ARD_D`/`ARD_A` are set or kept, other roles untouched |
| Pinout.ArdString | boardgen/core/core.py:170-186 | a plain string `D…` becomes `ARD_D`, `A…` becomes `ARD_A`, anything else only drops `ARD` |
| Pinout.ClassifyOne | boardgen/core/core.py:172-177 | one value goes to the list its first element names |
| Pinout.TooManyArd | boardgen/core/core.py:178-185 | two digital or two analog values raise `ValueError` |
| Pinout.SplitArd | boardgen/core/core.py:166-186 | the loop over a snapshot of the roles computes `ArdOf` |
| Pinout.PinRoles | boardgen/core/core.py:159-166 | roles that are not a dict fail with `AttributeError` |
| Pinout.PinRolesOf | boardgen/core/core.py:159-186 | one pin's roles are the IC merge, then the `ARD` split, with either step's error |
| Pinout.PinoutPinAt | boardgen/core/core.py:158-186 | the result has one pin per input pin, with the same name and that pin's processed roles |
| Pinout.PinoutPins | boardgen/core/core.py:158-186 | the pins keep their names and order, and each carries its processed roles |
| Pinout.PcbPinout | boardgen/core/core.py:154-158 | a non-empty pinout is the `pinout` dict of a dict `pcb` |
| Pinout.ProcessPinout | boardgen/core/core.py:158-186 | the loop over `pinout.values()` computes `PinoutOf` |
| Pinout.PinoutStep | boardgen/core/core.py:159-186 | one loop iteration appends the processed pin |
| Pinout.IcMergeUnique | boardgen/core/core.py:164 | merging the IC entry keeps the keys distinct |
| Pinout.PinoutPrefixFails | boardgen/core/core.py:159-186 | the first pin that fails makes the whole pinout step fail with its error |
| Enums.ShapeTypeValue | boardgen/models/enums.py:6-10 | every shape type's value parses back to that type |
| Enums.LabelDirValue | boardgen/models/enums.py:18-20 | every label direction's value parses back to that direction |
| Enums.IOTypeValue | boardgen/models/enums.py:59-66 | every I/O type's value parses back to that type |
| Enums.RoleIndex | boardgen/models/enums.py:23-56 | a role type's declaration index is below the number of role types |
| Enums.RoleAtIndex | boardgen/models/enums.py:23-56 | the role at an index has that index: the declaration order lists each role once |
| Enums.RoleIndexOf | boardgen/models/enums.py:23-56 | each role type sits at its own index |
| Enums.RoleValue | boardgen/models/enums.py:23-56 | every role type's value parses back to that role |
| Flash.HexText | boardgen/models/flash_region.py:24-40 | the text is `0x` and the upper-case digits, zero-padded to the width when one is set |
| Flash.HexTextParses | boardgen/models/flash_region.py:24-40 | the hex text reads back as its number, whatever the padding |
| Flash.ParsePrefixed | boardgen/core/core.py:194-195 | `int(..., 16)` reads a `0x`-prefixed digit string as its value |
| Flash.LstParts | boardgen/models/flash_region.py:46-48 | the flash-map row has three cells: the start, the size text with the length, and the end, each readable back |
| Flash.RegionHex | boardgen/models/flash_region.py:16-40 | start, end and length texts parse back to `offset`, `offset + length` and `length`, at the padded width |
| Flash.EndAlignsWithStart | boardgen/models/flash_region.py:24-34 | when both fit the offset width, start and end texts are equally long |
| Flash.NoPadding | boardgen/models/flash_region.py:36-40 | with no size width the length text has the shortest digits |
| Flash.ParseLayout | boardgen/core/core.py:193-195 | a layout that is not a string has no `partition` |
| Flash.LayoutParts | boardgen/core/core.py:193-195 | a parsed layout is two hex numbers either side of a `+` |
| Flash.Describe | boardgen/core/core.py:198-208 | a description that is not a dict is the title; a dict is spread in; name, offset and length are those passed |
| Flash.Entry | boardgen/core/core.py:192-208 | a region carries its entry's name and its parsed layout, and a bad layout is the entry's error |
| Flash.RawRegions | boardgen/core/core.py:188-208 | one region per table entry |
| Flash.Widened | boardgen/core/core.py:209-211 | every region gets the same two widths and keeps everything else |
| Flash.WidthAtLeast | boardgen/core/core.py:196-197 | the widest `hex()` of a non-empty table is at least three characters |
| Flash.OffsWidthIsMax | boardgen/core/core.py:196 | the offset width is the widest `hex()` of any offset, and some offset attains it |
| Flash.SizeWidthIsMax | boardgen/core/core.py:197 | the size width is the widest `hex()` of any length, and some length attains it |
| Flash.SharedAt | boardgen/core/core.py:196-211 | each region keeps its offset and length and gets the widest widths less the `0x` |
| Flash.SharedWidths | boardgen/core/core.py:196-211 | no region's offset or length is wider than the shared widths |
| Flash.SharedWidthsAttained | boardgen/core/core.py:196-211 | all regions share one pair of widths, which some offset and some length attain |
| Flash.StartsAligned | boardgen/core/core.py:196-211 | all start texts of the flash map have the same length |
| Flash.FlashRegionsOf | boardgen/core/core.py:188-212 | the table's regions are the parsed entries with the shared widths |
| Flash.UnknownRegion | boardgen/core/core.py:198-200 | a region the core's flash table lacks is titled `(unknown)` |
| Flash.RawRegionAt | boardgen/core/core.py:192-208 | region `i` is the result of entry `i` |
| Flash.ParseFlash | boardgen/core/core.py:189-211 | the two loops compute `FlashRegions` |
| Flash.ParseEntries | boardgen/core/core.py:189-208 | the first loop gives the regions and the running maxima of the `hex()` widths |
| Flash.Widen | boardgen/core/core.py:209-211 | the second loop sets the shared widths on every region |
| Flash.RawStep | boardgen/core/core.py:192-208 | one entry either fails the loop with its error or appends its region |
| Flash.WidthsAppend | boardgen/core/core.py:196-197 | the running maxima grow by one region's widths |
| Builder.VarItems | boardgen/shapes/base.py:72-76 | substituting variables in a list keeps its length |
| Builder.VarFields | boardgen/shapes/base.py:72-76 | substituting variables in a dict keeps its number of keys |
| Builder.VarJsonPlain | boardgen/shapes/base.py:72-76 | data without placeholders or conditionals comes back unchanged, whatever the variables |
| Builder.VarObjPlain | boardgen/shapes/base.py:72-76 | a plain dict is unchanged by the substitution |
| Builder.VarItemsPlain | boardgen/shapes/base.py:72-76 | a plain list is unchanged by the substitution |
| Builder.VarFieldsPlain | boardgen/shapes/base.py:72-76 | plain keys and values are unchanged by the substitution |
| Builder.AssignAllFresh | boardgen/shapes/base.py:66-70 | `|=` with distinct new keys appends them in order |
| Builder.CopyDict | boardgen/shapes/base.py:68 | `dict(d)` of a dict is the dict itself |
| Builder.BuildPresets | boardgen/core/core.py:134-145 | without variables the preset table is returned as it is |
| Builder.BuildPresetsPlain | boardgen/core/core.py:134-145 | a plain preset table is the same with or without variables |
| Builder.DefaultTypeLookup | boardgen/shapes/base.py:55-57 | data with a `name` and no `type` gets type `include`; nothing else changes |
| Builder.Namespace | boardgen/shapes/base.py:59-63 | without a truthy parent id or without an `id` the data is unchanged; the only failure is `TypeError` |
| Builder.NamespacePrefixes | boardgen/shapes/base.py:59-63 | a string id becomes `<parent>.<id>` and `base_id` keeps the original; other keys are untouched |
| Builder.NamespaceOf | boardgen/shapes/base.py:61-63 | the namespaced data is `base_id` then `id` assigned |
| Builder.ScopeVars | boardgen/shapes/base.py:65-70 | without own `vars` the scope is the parent's variables; own `vars` are merged with the dict update, whose only failures are `TypeError` and `ValueError` |
| Builder.ScopeVarsLookup | boardgen/shapes/base.py:65-70 | the shape's own variables win over the parent's |
| Builder.PresetOf | boardgen/shapes/base.py:84-88 | a preset is found exactly when the name is a string key of the table, and it is the value held there; an absent name is a `KeyError` |
| JsonValue.Iterated | boardgen/shapes/base.py:86-87 | iterating a value gives a list's items, a string's characters, a dict's keys; anything else is a `TypeError` |
| JsonValue.Ior | boardgen/shapes/base.py:70 | the dict update with a dict assigns its fields in order; an empty list or string changes nothing; `None`, a bool or a number is a `TypeError`; every failure is a `TypeError` or a `ValueError` |
| JsonValue.IorString | boardgen/shapes/base.py:70 | updating with a non-empty string is a `ValueError`, since each one-character item is not a pair |
| JsonValue.IorPairList | boardgen/shapes/base.py:70 | updating with a list of two-item lists whose first items are strings assigns those pairs in order, as a dict with those fields would |
| JsonValue.IorUnique | boardgen/core/core.py:164 | a successful dict update keeps the keys distinct |
| Builder.EmptyVarsInherit | boardgen/shapes/base.py:69-70 | own `vars` that are an empty list or string give the same scope as no own `vars` |
| Builder.EmptyPreset | boardgen/shapes/base.py:84-85 | a preset that is an empty list leaves the data unchanged |
| JsonValue.ReprStrRoundTrip | boardgen/core/core.py:171 | the `repr` of a string is written between two equal quotes, and the text between them reads back as the string |
| JsonValue.ReprStrPlain | boardgen/core/core.py:171 | a string without quotes, backslashes or control characters is written as itself between single quotes |
| JsonValue.EscapedRoundTrip | boardgen/core/core.py:171 | the escaped body of a string's `repr` reads back as the string |
| JsonValue.PyStrInt | boardgen/core/core.py:161 | `str` of an integer reads back as that integer with `int()` |
| JsonValue.FloatIntegral | boardgen/core/core.py:171 | the `repr` of a float with an integral value below 1e16 in magnitude is the integer's digits followed by `.0` |
| Builder.PresetOverrides | boardgen/shapes/base.py:84-85 | a preset overrides the keys it names and keeps the others, including `preset` itself |
| Builder.LaterPresetWins | boardgen/shapes/base.py:86-88 | of two presets listed, the later one wins |
| Builder.UnknownPreset | boardgen/shapes/base.py:84-85 | naming a preset that does not exist is a `KeyError` |
| Builder.Prepare | boardgen/shapes/base.py:53-91 | the step-by-step updates of `data` give `PrepareOf` |
| Builder.PresetsStep | boardgen/shapes/base.py:84-88 | the preset step gives `ApplyPresets` |
| Builder.PresetLoop | boardgen/shapes/base.py:86-88 | the loop over `presets` gives `ApplyAll` |
| Builder.TypeField | boardgen/shapes/base.py:93 | a missing type is a `KeyError`; every shape type's value yields that type |
| Builder.BuildItems | boardgen/core/core.py:118-119 | one shape per data item |
| Builder.Leaf | boardgen/shapes/base.py:94-100 | a constructed leaf keeps the shape's common fields and is not a group |
| Builder.ConstructLeaf | boardgen/shapes/base.py:93-100 | a known type other than `include` builds a leaf |
| Builder.GroupVars | boardgen/shapes/group.py:22-34 | a group's variables: its own over the parent's, with `I` and `J` gone |
| Builder.UnnamedGroup | boardgen/shapes/group.py:19-20 | a group without a name builds nothing |
| Builder.NoCopies | boardgen/shapes/group.py:28-32 | a repeat count of zero or less builds no children |
| Builder.BuildRepeat | boardgen/shapes/group.py:28-34 | the repeat loop gives the children of all copies and the variables afterwards |
| Builder.CopyLoop | boardgen/shapes/group.py:30-32 | `for i in range(repeat)` builds the copies in order, with `I` set for each |
| Builder.NextVars | boardgen/shapes/group.py:31 | setting `I` to `i` moves the loop's variables one turn on |
| Builder.CopyNext | boardgen/shapes/group.py:30-32 | one turn either fails all copies with its error or appends its shapes |
| Builder.CopyStep | boardgen/shapes/group.py:30-32 | copy `i` comes before the copies after it |
| Builder.AssignTwice | boardgen/shapes/group.py:31 | setting a key twice is setting it to the last value |
| Builder.NamedGroup | boardgen/shapes/group.py:16-34 | a named group's children are the concatenated copies, and its variables hold no `I` and no `J` |
| Builder.UnknownType | boardgen/shapes/base.py:93 | an unknown `type` string is a `ValueError` |
| Builder.MissingType | boardgen/shapes/base.py:55-57 | data with neither `type` nor `name` is a `KeyError` |
| Builder.RectFromData | boardgen/shapes/rect.py:12-42 | a rectangle spans `pos` to `pos + size` |
| Builder.RectBox | boardgen/shapes/rect.py:36-42 | a rectangle's box is `pos` to `pos + size` |
| Builder.MetaPos | boardgen/shapes/base.py:28-30 | a shape is where its `pos` says |
| Builder.RemapBoth | boardgen/shapes/base.py:16-20 | `pos` and `size` strings are split into vectors |
| Builder.TextRequired | boardgen/shapes/text.py:10-14 | a text shape needs `text` and `font_size` |
| Labels.SubAdvance | boardgen/shapes/label/label.py:79 | the cursor moves by the sub-label's full slot `label_size * ratio` in its direction, whatever the padding; the box is centred on the line |
| Labels.SubSlot | boardgen/shapes/base.py:160-188 | the slot starts at the cursor and extends in the label direction, each side inset by the padding |
| Labels.IOLineGeometry | boardgen/shapes/label/io_line.py:11-25 | an `IOLine` is a tenth of the label size high, centred on the line, with a padding of a quarter of the label size |
| Labels.IoInference | boardgen/shapes/label/label.py:27-44 | the roles then always have an `IO` role, set by precedence; a ground pin reads `GND`; nothing else changes |
| Labels.SortedRolesOrder | boardgen/shapes/label/label.py:46-48 | the sorted roles are exactly the present ones, each once, in increasing declaration index |
| Labels.SortedRolesIn | boardgen/shapes/label/label.py:46-48 | every sorted role type is one of the roles |
| Labels.SortedFromOrder | boardgen/shapes/label/label.py:46-48 | the roles from index `i` on, in declaration order |
| Labels.NewSub | boardgen/shapes/label/label.py:58-78 | an `IO` text becomes an `IOLine` (a `ValueError` when it names no I/O type), any other a `Block` of the text, at the cursor with the role's ratio; without a label size it is a `TypeError` |
| Labels.TextLabels | boardgen/shapes/label/label.py:57-80 | one sub-label per text |
| Labels.StackedAppend | boardgen/shapes/label/label.py:57-80 | two runs of sub-labels, the second starting where the first ends, are one run |
| Labels.TextLabelsStacked | boardgen/shapes/label/label.py:57-80 | a role's sub-labels follow one another from the cursor, each with that role type and ratio |
| Labels.RoleLabelsStacked | boardgen/shapes/label/label.py:51-80 | a line's sub-labels follow one another, each with a present role type that `core.roles` defines, and its ratio |
| Labels.StackedAt | boardgen/shapes/label/label.py:51-80 | the first sub-label is at the cursor, all are on the same line, and each next one starts one slot further |
| Labels.LabelBox | boardgen/shapes/label/label.py:91-105 | `min`/`max` of no sub-labels is a `ValueError` |
| Labels.BoundsOfUnion | boardgen/shapes/label/label.py:91-105 | the label's box holds every sub-label's box, and each of its sides is a side of some sub-label |
| Labels.MoveSubs | boardgen/shapes/label/label.py:84-85 | each sub-label is moved |
| Labels.MoveBounds | boardgen/shapes/label/label.py:82-105 | moving the sub-labels shifts the label's box by the same vector |
| Labels.MoveLabelBox | boardgen/shapes/label/label.py:82-105 | moving keeps an empty label an error and shifts any other label's box |
| Labels.Label.constructor | boardgen/shapes/label/label.py:14-16 | a label starts at its position, with its roles and no sub-labels |
| Labels.Label.Build | boardgen/shapes/label/label.py:18-80 | the roles get their I/O role, then the layout's sub-labels are appended; on an error, what was appended before it stays |
| Labels.Label.InferIo | boardgen/shapes/label/label.py:27-44 | the `if`s set the roles to `IoRoles` of the old roles |
| Labels.Label.LayOut | boardgen/shapes/label/label.py:51-80 | the layout loop appends `RoleLabels`, or stops at its error |
| Labels.Label.RoleOrder | boardgen/shapes/label/label.py:47-48 | the label's role types in declaration order |
| Labels.Label.LayOutRole | boardgen/shapes/label/label.py:52-80 | a role type `core.roles` lacks is skipped; otherwise its texts are laid out and the cursor moved past them |
| Labels.Label.LayOutLine | boardgen/shapes/label/label.py:57-80 | each text's sub-label is appended and the cursor moved past it |
| Labels.Label.Move | boardgen/shapes/label/label.py:82-85 | the label and every sub-label move by the vector |
| Labels.LayOutLineStep | boardgen/shapes/label/label.py:57-80 | one text either fails the line or adds its sub-label at the cursor and moves it on |
| Labels.LayOutStep | boardgen/shapes/label/label.py:52-80 | one role type either fails the layout or adds its line and moves the cursor past it |
| Shapes.Union | boardgen/shapes/group.py:79-93 | the smallest box holding both boxes |
| Shapes.RectSize | boardgen/shapes/rect.py:36-42 | a rectangle's width and height are its size |
| Shapes.RectExample | boardgen/shapes/rect.py:36-42 | an illustration: position (1, 2) and size (3, 4) give the box (1, 2)-(4, 6) |
| Shapes.CircleSize | boardgen/shapes/circle.py:35-49 | a circle's box is its diameter wide and high |
| Shapes.TextSize | boardgen/shapes/text.py:26-41 | a text's box is 2 by 2, whatever its text and font size |
| Shapes.UnionOfBounds | boardgen/shapes/group.py:79-93 | a group's box holds every child's box and each of its edges is some child's edge |
| Shapes.MoveAll | boardgen/shapes/group.py:76-77 | moving a list keeps its length |
| Shapes.MoveAllAt | boardgen/shapes/group.py:76-77 | child `i` is moved by the vector |
| Shapes.MoveBack | boardgen/shapes/group.py:74-77 | moving by `v` then by `-v` restores the shape |
| Shapes.MoveAllBack | boardgen/shapes/group.py:74-77 | moving a list by `v` then by `-v` restores it |
| Shapes.MoveBox | boardgen/shapes/base.py:102-103 | moving shifts the box by the vector, keeps sizes and radii, and keeps an empty group an error |
| Shapes.MoveUnion | boardgen/shapes/group.py:74-93 | moving the children shifts their union |
| Shapes.Wrap | boardgen/shapes/group.py:63-72 | the wrapper is a group at the origin, holding the shapes as they are, whose full id is the one given |
| Shapes.FirstWithId | boardgen/shapes/group.py:40-48 | nothing is found exactly when no shape has the id |
| Shapes.FirstWithIdIndex | boardgen/shapes/group.py:40-48 | what is found has the id, and no shape before it has |
| Shapes.FirstWithIdAppend | boardgen/shapes/group.py:40-48 | the first match in a concatenation is in the first part, if it has one |
| Shapes.GetByIdPreOrder | boardgen/shapes/group.py:40-48 | `get_by_id` gives the first shape with the id in pre-order, or `None`; the group itself is not compared |
| Shapes.PathFirstMatch | boardgen/shapes/group.py:50-61 | the first child whose `base_id` is the segment decides: the rest of the path then goes into it if it is a group, otherwise it is the result |
| Shapes.PathNoMatch | boardgen/shapes/group.py:50-61 | with no child for the segment the result is `None` |
| Shapes.MakeCircle | boardgen/shapes/circle.py:16-21 | without a truthy `r` or `d` it is a `ValueError`; a truthy `d` sets `r` to `d / 2` |
| Shapes.DiameterWidth | boardgen/shapes/circle.py:16-49 | a circle given by its diameter is that wide |
| JsonValue.Lookup | boardgen/shapes/base.py:84 | `k in d` holds exactly when `d` has a field with key `k` |
| JsonValue.AssignKeys | boardgen/core/core.py:181 | `d[k] = v` keeps an existing key in its place and appends a new one |
| JsonValue.AssignAllLookup | boardgen/shapes/base.py:85 | after `d |= e` the keys of `e` carry `e`'s values and the other keys keep theirs |
| JsonValue.DeleteLookup | boardgen/core/core.py:186 | `d.pop(k, None)` removes `k` and keeps the other keys |
| PcbBuild.TemplateOf | boardgen/core/core.py:229 | a template file that is missing makes `Template(**None)` a `TypeError`; a template without a string `title`, numeric `width` and `height` and a `front` is refused |
| PcbBuild.BoardVarsLookup | boardgen/core/core.py:219-221 | `NAME`, `TITLE` and `SYMBOL` are set, the other variables stay, the keys stay unique |
| PcbBuild.TemplateLoop | boardgen/core/core.py:228-233 | a successful loop adds one template per name |
| PcbBuild.TemplatePads | boardgen/core/core.py:228-233 | a pad no template defines keeps the pcb's value, and the last template defining a pad wins |
| PcbBuild.AssignAllKept | boardgen/core/core.py:231-232 | a key the template lacks keeps its value through `|=` |
| PcbBuild.Sources | boardgen/core/core.py:227-234 | the sources are the templates in order, then the pcb |
| PcbBuild.SideItemsCount | boardgen/core/core.py:237-242 | each data entry of a side becomes exactly one shape |
| PcbBuild.SourceScope | boardgen/core/core.py:230-243 | a template's shapes get the side as id suffix, and see the board variables over the template's own |
| PcbBuild.SideShapes | boardgen/core/core.py:236-246 | the sides are wrapped as groups `<board>.front` and `<board>.back`, holding that side's shapes; a front failure is the result |
| PcbBuild.Pcb.constructor | boardgen/models/pcb.py:14-26 | a pcb holds its fields as given, with no shapes yet |
| PcbBuild.FinishPcb | boardgen/core/core.py:214-248 | the board variables are set, the templates merged into the pads and memo, then the side shapes set; an error keeps the earlier updates |
| PcbBuild.MergeTemplates | boardgen/core/core.py:228-234 | the template loop's pads, test pads and memo are `TemplateLoop`'s |
| PcbBuild.BuildSides | boardgen/core/core.py:236-246 | both sides, front first, give `SideShapes` |
| PcbBuild.TemplateLoopFails | boardgen/core/core.py:228-233 | once a template fails the loop stops there |
| PcbBuild.BuildSide | boardgen/core/core.py:237-242 | one side's loop gives `SideItems` |
| PcbBuild.SideItemsFails | boardgen/core/core.py:237-242 | once a source fails the side fails with it |
| PcbBuild.PinLabel | boardgen/core/core.py:258-271 | a pin without a pad entry is skipped; a built label belongs to its pin, has an `IO` role and at least one sub-label |
| PcbBuild.PlacedPins | boardgen/core/core.py:258-282 | every label belongs to a pin with a pad entry, in pinout order, at most one per pin |
| PcbBuild.NoPadsNoLabels | boardgen/core/core.py:258-260 | without pins that have pads there are no labels |
| PcbBuild.Hull | boardgen/core/core.py:256-281 | the box is `None` exactly when no label was built |
| PcbBuild.HullContains | boardgen/core/core.py:272-281 | the box holds every label's box |
| PcbBuild.HullAttained | boardgen/core/core.py:272-281 | each side of the box is a side of some label |
| PcbBuild.BuildLabels | boardgen/core/core.py:250-284 | the test pads are merged into the pcb's pads in place, then the labels and box are those of `PlacedAll` |
| PcbBuild.LabelLoop | boardgen/core/core.py:256-284 | the pin loop's labels and box are those of `PlacedAll` |
| PcbBuild.PlaceLabel | boardgen/core/core.py:259-271 | one pin's label object, new, at the pad, with the built roles and sub-labels |
| PcbBuild.PlacedStep | boardgen/core/core.py:258-282 | one pin either fails the loop or adds its label when it has one |
| PcbBuild.HullSnoc | boardgen/core/core.py:272-281 | the box widens by each new label |
| PcbBuild.PlacedAllFails | boardgen/core/core.py:258-271 | once a pin fails the loop fails with it |
| ReadmeParts.PadFacts | boardgen/readme/parts.py:9-10 | `pad(s, i)` starts with `s`, fills with spaces, and is `max(len(s), i)` long: a short `i` never cuts |
| ReadmeParts.Heading | boardgen/readme/parts.py:12-14 | the heading is `level` hashes (none for a negative level), a space, and the text |
| ReadmeParts.HeadingLevel | boardgen/readme/parts.py:12-14 | the level reads back from the heading, whatever the text holds |
| ReadmeParts.HashesBefore | boardgen/readme/parts.py:13 | a run of hashes in front adds its length to the leading hashes |
| ReadmeParts.ParseLink | boardgen/readme/parts.py:16-17 | a parsed link is the link of its text and target, with no `]` in the text |
| ReadmeParts.LinkRoundTrip | boardgen/readme/parts.py:16-17 | a link whose text has no `]` reads back as its text and target |
| ReadmeParts.ImgIsMarkedLink | boardgen/readme/parts.py:19-20 | an image is a link marked with `!`, and reads back the same way |
| ReadmeParts.Styled | boardgen/readme/parts.py:34-36 | the style, the words joined by spaces, the style again |
| ReadmeParts.WordsSplit | boardgen/readme/parts.py:30-32 | words without spaces split back out of the joined text |
| ReadmeParts.BulletJoin | boardgen/readme/parts.py:40 | `"- " + "\n- ".join(texts)` is the bulleted texts joined by newlines |
| ReadmeParts.ListLines | boardgen/readme/parts.py:38-41 | a list is one bulleted line per item when no item spans lines; with no items it is a lone bullet |
| ReadmeParts.CodeBlockLines | boardgen/readme/parts.py:43-48 | a code block is an opening fence with the language, the lines of the code, and a closing fence |
| ReadmeParts.Widened | boardgen/readme/parts.py:53-54 | a row with more columns than the header runs off `maxlen` (`IndexError`); otherwise one width per column |
| ReadmeParts.WidthsOk | boardgen/readme/parts.py:51-54 | the widths exist exactly when no row is wider than the header, one per header cell |
| ReadmeParts.WidthsMaxima | boardgen/readme/parts.py:51-54 | each column is as wide as its widest cell, header included, and that cell attains it |
| ReadmeParts.PaddedAligned | boardgen/readme/parts.py:56-65 | every padded cell is as wide as its column and starts with its text, so the separators line up |
| ReadmeParts.UnderlineWhole | boardgen/readme/parts.py:59-61 | the underline has no trailing space, so stripping keeps it whole |
| ReadmeParts.DashesJoin | boardgen/readme/parts.py:60 | joined dashes end in a dash or are empty |
| ReadmeParts.TableLinesSplit | boardgen/readme/parts.py:55-66 | a table's text has exactly `2 + len(rows)` lines: header, underline and one per row |
| ReadmeParts.LineFree | boardgen/readme/parts.py:57-65 | a line of cells without newlines has none |
| ReadmeParts.ColumnWidths | boardgen/readme/parts.py:51-54 | the width loop computes `Widths` |
| ReadmeParts.WidthsStop | boardgen/readme/parts.py:52-54 | a failing row fails the whole table |
| ReadmeParts.FormatLines | boardgen/readme/parts.py:55-65 | the line loop computes `TableLines` |
| ReadmeParts.Readme.constructor | boardgen/readme/parts.py:6-7 | a new document has no items |
| ReadmeParts.Readme.AddHeading | boardgen/readme/parts.py:12-14 | one heading item is appended |
| ReadmeParts.Readme.AddLink | boardgen/readme/parts.py:22-24 | one link item is appended |
| ReadmeParts.Readme.AddImg | boardgen/readme/parts.py:26-28 | one image item is appended |
| ReadmeParts.Readme.AddText | boardgen/readme/parts.py:30-32 | the words joined by spaces are appended |
| ReadmeParts.Readme.AddStyled | boardgen/readme/parts.py:34-36 | one styled item is appended |
| ReadmeParts.Readme.AddList | boardgen/readme/parts.py:38-41 | one list item is appended |
| ReadmeParts.Readme.AddCode | boardgen/readme/parts.py:43-48 | one code block item is appended |
| ReadmeParts.Readme.AddTable | boardgen/readme/parts.py:50-67 | the table is appended, or a row wider than the header raises before anything is appended |
| VariantParts.FeatureIndex | boardgen/variant/features.py:6-18 | a flag's declaration position, which is also its bit, is below the number of flags |
| VariantParts.FeatureAt | boardgen/variant/features.py:6-18 | the flag at a position has that position |
| VariantParts.FeatureAtIndex | boardgen/variant/features.py:6-18 | each flag sits at its own position: the class lists every flag once |
| VariantParts.WithFeature | boardgen/variant/parts.py:28-29 | the new flags are set, the others stay, and `PIN_NONE` survives only if the new flags carry it |
| VariantParts.WithFeatureIdempotent | boardgen/variant/parts.py:28-29 | adding a feature twice is adding it once |
| VariantParts.FlagsFromMembers | boardgen/variant/parts.py:66-68 | the flags listed from position `i` on are the set ones from there |
| VariantParts.FlagsFromOrder | boardgen/variant/parts.py:66-68 | the flags listed from position `i` on are in increasing order |
| VariantParts.FlagsOrder | boardgen/variant/parts.py:66-68 | the listed flags are exactly the set ones, in increasing declaration order |
| VariantParts.FlagNamesOf | boardgen/variant/parts.py:65-68 | the inner loop gives the names of the set flags, in declaration order |
| VariantParts.FirstPinWins | boardgen/variant/parts.py:18-22 | the first registration of a name wins, as `(gpio, PIN_NONE, comment, {})`, and a second one changes nothing |
| VariantParts.FeatureAddedFacts | boardgen/variant/parts.py:24-30 | adding a feature keeps the names and the other fields, sets the feature on that pin only, and is idempotent |
| VariantParts.RolesAddedFacts | boardgen/variant/parts.py:32-37 | the pin's roles become its old roles and the texts, other pins and fields stay, and adding them again changes nothing |
| VariantParts.ItemAddedFacts | boardgen/variant/parts.py:39-44 | exactly one item more, at the end of that section, which is created if needed; other sections stay |
| VariantParts.FirstIndex | boardgen/variant/parts.py:49-53 | the index found holds the key, and no earlier item does; nothing is found when no item has the key |
| VariantParts.SameKeysFirstIndex | boardgen/variant/parts.py:49-53 | the first index depends on the keys alone |
| VariantParts.IncrementedCounts | boardgen/variant/parts.py:46-54 | the key's count goes up by one (an absent key counts 0), no other count changes; an existing key keeps the list's keys, a new one is appended as `(key, 1, None)` |
| VariantParts.Parts.constructor | boardgen/variant/parts.py:12-14 | no pins and no sections |
| VariantParts.Parts.AddPin | boardgen/variant/parts.py:18-22 | returns whether the name was new, and registers it only then |
| VariantParts.Parts.AddPinFeature | boardgen/variant/parts.py:24-30 | the pins become `FeatureAdded`, a no-op for an unknown name |
| VariantParts.Parts.AddPinRoles | boardgen/variant/parts.py:32-37 | the loop adds each text to the pin's role set |
| VariantParts.Parts.AddItem | boardgen/variant/parts.py:39-44 | one item is appended to the section |
| VariantParts.Parts.IncrementItem | boardgen/variant/parts.py:46-54 | the loop increments the first item with the key, or appends `(key, 1, None)` |
| VariantParts.MaxLenBounds | boardgen/variant/parts.py:71-72 | the running width is the length of the longest string, or 0 without any |
| VariantParts.MaxLenStep | boardgen/variant/parts.py:71-72 | one more string raises the width to its length if that is more |
| VariantParts.EntryColumns | boardgen/variant/parts.py:75-79 | padded to the widths, an entry's features and `PIN_NONE` columns line up |
| VariantParts.InterleaveAt | boardgen/variant/parts.py:73-79 | each pin's comment line comes right before its entry |
| VariantParts.InterleaveFramed | boardgen/variant/parts.py:57-81 | pin `i`'s comment and entry sit at lines `2 + 2i` and `3 + 2i` |
| VariantParts.RowFits | boardgen/variant/parts.py:64-72 | each row's C name and features text fit the table's widths |
| VariantParts.EntryAt | boardgen/variant/parts.py:73-79 | entry `i` is aligned to widths both its texts fit |
| VariantParts.PinTableAligned | boardgen/variant/parts.py:56-82 | the table has `2 * len + 4` lines, each pin's comment, then its entry aligned to the widest C name and features text |
| VariantParts.PinWidths | boardgen/variant/parts.py:64-72 | the first loop gives the features texts and the two widths |
| VariantParts.InterleaveSnoc | boardgen/variant/parts.py:73-79 | one more row adds its comment and its entry |
| VariantParts.PinLines | boardgen/variant/parts.py:73-79 | the second loop emits a comment and an entry per row |
| VariantParts.FormatPins | boardgen/variant/parts.py:56-82 | the output is the table's lines joined by newlines |
| VariantParts.HeadEnds | boardgen/variant/parts.py:107 | a `#define` head opens on `#` and ends on the value's last digit |
| VariantParts.DefineLineStrips | boardgen/variant/parts.py:98-108 | the stripped padded line is `DefineLine` |
| VariantParts.HeadColumns | boardgen/variant/parts.py:104-107 | the key is at the start and the value in column `max_key + 9` |
| VariantParts.DefineColumns | boardgen/variant/parts.py:98-108 | every `#define` line names its key first and has its value in the column after the longest key; stripping never cuts into the value |
| VariantParts.SectionLines | boardgen/variant/parts.py:89-109 | a section has three lines more than items |
| VariantParts.SectionLineAt | boardgen/variant/parts.py:98-108 | line `i + 2` of a section is item `i`'s `#define` |
| VariantParts.KeyFits | boardgen/variant/parts.py:94-96 | every key fits the section's key width |
| VariantParts.SectionFrame | boardgen/variant/parts.py:90-109 | a section opens with `// title` and a dash line as long as the title, and closes with an empty line |
| VariantParts.SectionShape | boardgen/variant/parts.py:89-109 | line `i + 2` is item `i`'s `#define`, aligned to the section's longest key |
| VariantParts.ConcatAt | boardgen/variant/parts.py:89-109 | each block of lines sits right after the blocks before it |
| VariantParts.SectionWidths | boardgen/variant/parts.py:92-97 | the first loop gives the widest key and the widest value |
| VariantParts.DefineLineIs | boardgen/variant/parts.py:98-108 | the line the second loop emits is `DefineLine` |
| VariantParts.DefineLinesSnoc | boardgen/variant/parts.py:98-108 | one more item adds its line |
| VariantParts.DefinesOf | boardgen/variant/parts.py:98-108 | the second loop gives `DefineLines` |
| VariantParts.FormatSection | boardgen/variant/parts.py:90-109 | one section's lines are `SectionLines` |
| VariantParts.ConcatSnoc | boardgen/variant/parts.py:89-109 | one more section's block follows the blocks before it |
| VariantParts.FormatSections | boardgen/variant/parts.py:84-110 | the output is the header and every section's lines joined by newlines |
| VariantParts.SectionsLayout | boardgen/variant/parts.py:84-110 | each section is its own block (title, dash line, aligned items, blank line), right after the sections before it |
| ReadmeWriter.WithDefaults | boardgen/readme/writer.py:25-29 | a missing `doc` and a missing `doc.params` are filled in, a present one is kept, nothing else changes |
| ReadmeWriter.RoleKey | boardgen/readme/writer.py:62-68 | an indexed value `<digit>_...` longer than two characters counts as its digit, any other text as itself; an empty text or a non-text cannot be indexed |
| ReadmeWriter.KeysAdded | boardgen/readme/writer.py:64-68 | the set after the loop is the old set and every value's key |
| ReadmeWriter.PinKeys | boardgen/readme/writer.py:59-68 | one pin adds its role types, and to each type's set the keys of its values |
| ReadmeWriter.PinKeysAt | boardgen/readme/writer.py:59-68 | one pin, for one role type and one key |
| ReadmeWriter.RoleAddedKeys | boardgen/readme/writer.py:60-68 | one role adds its type, and to that type's set the keys of its values |
| ReadmeWriter.RolePinsMembers | boardgen/readme/writer.py:57-68 | `role_pins` has a set for exactly the role types some pin has, holding exactly the keys of that type's values over all pins |
| ReadmeWriter.Reported | boardgen/readme/writer.py:70-74 | the reported role types are exactly those of the list that have a non-empty set |
| ReadmeWriter.Counts | boardgen/readme/writer.py:69-74 | one count text per reported role type |
| ReadmeWriter.ReportedInOrder | boardgen/readme/writer.py:70-74 | the reported role types are those with values, in the order given |
| ReadmeWriter.IoCounts | boardgen/readme/writer.py:69-75 | `I/O` lists GPIO, PWM, UART and ADC in that order, each that has values, with its number of distinct keys |
| ReadmeWriter.Insert | boardgen/readme/writer.py:138 | inserting adds exactly one entry |
| ReadmeWriter.SortBy | boardgen/readme/writer.py:138 | sorting keeps the number of entries |
| ReadmeWriter.SortByFacts | boardgen/readme/writer.py:138 | the sorted entries are in key order and are a permutation of the input |
| ReadmeWriter.NumberKey | boardgen/readme/writer.py:138 | `int(x[1:])` of a name: a non-string cannot be sliced, and the rest must be a number |
| ReadmeWriter.Unnumbered | boardgen/readme/writer.py:138 | the error is the first name's that has no number |
| ReadmeWriter.ByNumberFacts | boardgen/readme/writer.py:138 | sorting by number fails exactly when some name has no number; it keeps the entries, in order of their numbers |
| ReadmeWriter.ByNumberSame | boardgen/readme/writer.py:138 | sorting by number is a permutation of the entries |
| ReadmeWriter.AssignedFacts | boardgen/readme/writer.py:121 | after `d[k] = v` the keys are the old ones and `k`, distinct and in their old order; `k` holds `v`, every other key its old value |
| ReadmeWriter.DigitalCellsFacts | boardgen/readme/writer.py:121-127 | a digital pin's cells hold exactly the role types the pin has and the core knows, each with the texts of its value |
| ReadmeWriter.AnalogCells | boardgen/readme/writer.py:130-136 | the GPIO texts when the pin's GPIO value is truthy, then the ADC texts when its ADC value is; an unknown role is a `KeyError` |
| ReadmeWriter.MapsAddedDistinct | boardgen/readme/writer.py:118-136 | each pin keeps the names of both dicts distinct |
| ReadmeWriter.MapsOfFacts | boardgen/readme/writer.py:118-136 | only an analog pin whose GPIO or ADC role the core lacks stops the loop, with a `KeyError` |
| ReadmeWriter.DigitalRow | boardgen/readme/writer.py:139-152 | a digital pin's row is seven cells: its name, then GPIO, UART, I²C, SPI, PWM, then SWD, JTAG and DVP together |
| ReadmeWriter.AnalogRow | boardgen/readme/writer.py:153-164 | an analog pin's row is its name and its texts, the rest empty |
| ReadmeWriter.RowsMatch | boardgen/readme/writer.py:138-164 | rows over a permutation of the pins cover every pin |
| ReadmeWriter.DigitalSorted | boardgen/readme/writer.py:138-152 | the digital rows are in the order of their names' numbers |
| ReadmeWriter.AnalogSorted | boardgen/readme/writer.py:153-164 | the analog rows are in the order of their names' numbers |
| ReadmeWriter.PinRowsSorted | boardgen/readme/writer.py:138-168 | the rows are the digital rows, seven cells each in numeric order, then the analog rows likewise |
| ReadmeWriter.PinRowsIs | boardgen/readme/writer.py:138-168 | the rows are the digital rows followed by the analog rows |
| ReadmeWriter.PinRowsCover | boardgen/readme/writer.py:138-168 | one row per pin: first the digital pins, then the analog pins |
| ReadmeWriter.GroupedDigits | boardgen/readme/writer.py:178 | without its commas, `format(n, ',d')` is the number's digits |
| ReadmeWriter.GroupedStep | boardgen/readme/writer.py:178 | a group after the first keeps its three digits |
| ReadmeWriter.GroupWidth | boardgen/readme/writer.py:178 | a number below 1000 padded to three digits reads back as itself |
| ReadmeWriter.ZeroedAll | boardgen/readme/writer.py:188-189 | every region's size padding is zeroed, nothing else changes |
| ReadmeWriter.Gap | boardgen/readme/writer.py:191-198 | the reserved gap runs from the previous end to the region's start, with the region's offset width |
| ReadmeWriter.LayoutNamed | boardgen/readme/writer.py:187-200 | every region has its row, in order and with no size padding |
| ReadmeWriter.LayoutReserved | boardgen/readme/writer.py:191-198 | every gap row fits between its neighbours |
| ReadmeWriter.LayoutAdjacent | boardgen/readme/writer.py:187-200 | where a region's row follows another region's, it starts at or before that one's end |
| ReadmeWriter.SlotRow | boardgen/readme/writer.py:198-199 | a row is `(reserved)` or the region's name, then the region's three cells |
| ReadmeWriter.SlotRows | boardgen/readme/writer.py:187-200 | one row per slot |
| ReadmeWriter.LinkItems | boardgen/readme/writer.py:36-39 | one list item per product link, each the link itself |
| ReadmeWriter.IoRows | boardgen/readme/writer.py:56-75 | with pins, the `I/O` row of the counts, or the counting error |
| ReadmeWriter.BaseRows | boardgen/readme/writer.py:42-55 | the board code, the MCU, the optional manufacturer and series, the frequency, the sizes, the optional voltage |
| ReadmeWriter.DocRows | boardgen/readme/writer.py:76-80 | the extra parameters, then the FCC ID as a link |
| ReadmeWriter.SpecRows | boardgen/readme/writer.py:41-80 | the specification rows, in order, or the counting error |
| ReadmeWriter.FlashItemsAre | boardgen/readme/writer.py:171-201 | the flash section is its heading, the size texts and the table of the rows |
| ReadmeWriter.PinTableIs | boardgen/readme/writer.py:110-169 | the mapping section is its heading and the table of the rows |
| ReadmeWriter.AssembledOrder | boardgen/readme/writer.py:25-205 | the info items come first; without an error the extra items come last, verbatim |
| ReadmeWriter.WrittenOrder | boardgen/readme/writer.py:25-205 | the document starts with the info and, without an error, ends with the extra items |
| ReadmeWriter.WrittenFails | boardgen/readme/writer.py:56-169 | `write` raises exactly when counting fails or the mapping of a board with an Arduino core fails |
| ReadmeWriter.WrittenFrom | boardgen/readme/writer.py:25-205 | the document from the values of its sections |
| ReadmeWriter.WrittenBoard | boardgen/readme/writer.py:25-200 | the board after `write` has its defaults, and without an earlier error no size padding on any region |
| ReadmeWriter.FlashSorted | boardgen/readme/writer.py:184 | the flash rows go over the regions in order of their starts |
| ReadmeWriter.CollectRolePins | boardgen/readme/writer.py:57-68 | the `role_pins` loop |
| ReadmeWriter.CollectMaps | boardgen/readme/writer.py:118-136 | the loop filling `digital` and `analog` |
| ReadmeWriter.PinRowsOf | boardgen/readme/writer.py:138-168 | the two row loops and the join of every cell |
| ReadmeWriter.FlashRowsOf | boardgen/readme/writer.py:186-200 | the `prev_end` loop: a gap row when the previous end is below the start, then the region's row |
| ReadmeWriter.Writer.constructor | boardgen/readme/writer.py:18-20 | a new writer has no items |
| ReadmeWriter.Writer.Clear | boardgen/readme/writer.py:22-23 | every item is dropped |
| ReadmeWriter.Writer.WriteInfo | boardgen/readme/writer.py:31-39 | the heading, the vendor, the optional product link and the optional link list are appended |
| ReadmeWriter.Writer.WriteSpecs | boardgen/readme/writer.py:41-81 | the specification table is appended, or nothing on a counting error |
| ReadmeWriter.Writer.WriteUsage | boardgen/readme/writer.py:83-102 | the usage heading and board code, and for LibreTuya the two code blocks |
| ReadmeWriter.Writer.WritePinHead | boardgen/readme/writer.py:104-108 | the pinout heading and image when the board has templates |
| ReadmeWriter.Writer.WritePinTable | boardgen/readme/writer.py:110-169 | the heading, then the table or the error that stops `write` |
| ReadmeWriter.Writer.AddFlashTable | boardgen/readme/writer.py:172-201 | the flash heading, the size and unit texts and the table |
| ReadmeWriter.Writer.WriteFlash | boardgen/readme/writer.py:171-201 | the flash section of a board with regions |
| ReadmeWriter.Writer.Write | boardgen/readme/writer.py:25-205 | the items appended, the error and the board left behind are those of `Written` |
| VariantWriter.RoleGetMissing | boardgen/variant/writer.py:66-70 | `pin.get(t, d)` of a role type the pin lacks is the default |
| VariantWriter.RoleGetPresent | boardgen/variant/writer.py:66-70 | the default does not matter for a role type the pin holds |
| VariantWriter.ReadPinNames | boardgen/variant/writer.py:65-69 | a pin is skipped exactly when neither its GPIO nor its ADC value is truthy; its name is the first truthy one, its C name `C_NAME` or else the name |
| VariantWriter.ReadPinNumber | boardgen/variant/writer.py:70-74 | the number is `int(GPIONUM)` when given, else the name's digits read as one number; a name without digits is a `ValueError` |
| VariantWriter.ReadPinByName | boardgen/variant/writer.py:65-74 | an illustration: `GPIO: "PA_12"` without `GPIONUM` is pin 12 with C name `PA_12` |
| VariantWriter.ReadPinByNumber | boardgen/variant/writer.py:65-72 | an illustration: `ADC: "AD_3"` with `GPIONUM: "19"` is pin 19 |
| VariantWriter.ReadPinNoDigits | boardgen/variant/writer.py:73-74 | an illustration: a GPIO name without digits and without `GPIONUM` is a `ValueError` |
| VariantWriter.WithSignalFacts | boardgen/variant/writer.py:164-166 | the signal's pin list gets `n` at its end, other signals keep theirs and their place, a new signal comes last, keys stay distinct |
| VariantWriter.WithPortFacts | boardgen/variant/writer.py:162-166 | the interface index is there afterwards with `n` appended to its signal; other interfaces are as they were |
| VariantWriter.IndexOfKeyAt | boardgen/variant/writer.py:162-166 | with distinct keys, a key is found where it sits |
| VariantWriter.PortRoleForm | boardgen/variant/writer.py:157-161 | a port role is recognised exactly in the form `<digit>_<signal>`, and splits into that index and signal |
| VariantWriter.ListTexts | boardgen/variant/writer.py:154-158 | the texts of a list, one per item; an item that is not a string is a `TypeError` |
| VariantWriter.HiddenRoles | boardgen/variant/writer.py:51 | exactly the Arduino numbers, the I/O direction and the C name are left out of the pin comments |
| VariantWriter.MacroItems | boardgen/variant/writer.py:127-129 | one `PIN_<text>` item per short role text, with the pin's number and C name |
| VariantWriter.CountedSectionsIs | boardgen/variant/writer.py:135-142 | the counters change the `PINS` items as `CountedItems` says, and no other section |
| VariantWriter.IncrementedIfCounts | boardgen/variant/writer.py:137-142 | a conditional increment adds one to its key's count when taken, and leaves other keys alone |
| VariantWriter.CountedValues | boardgen/variant/writer.py:135-142 | a new pin increments `PINS_COUNT`, and `NUM_DIGITAL_PINS`, `NUM_ANALOG_INPUTS`, `NUM_ANALOG_OUTPUTS` by one when it has `ARD_D`, `ARD_A`, `PWM` |
| VariantWriter.FeaturesAddedFacts | boardgen/variant/writer.py:145-148 | only the named record's features change: they lose `PIN_NONE` and gain its role types' features, if any |
| VariantWriter.PinRegisteredPins | boardgen/variant/writer.py:114-148 | registering maps the number to the Arduino name, adds the record unless one is there, and merges its features |
| VariantWriter.PinRegisteredSections | boardgen/variant/writer.py:117-142 | registering appends the macro items; the counters move only for a new name |
| VariantWriter.NumberedList | boardgen/variant/writer.py:182-185 | one numbered item per pin of the signal |
| VariantWriter.SignalList | boardgen/variant/writer.py:181-188 | numbered items for several pins, the bare key for one |
| VariantWriter.NumberedItemsIs | boardgen/variant/writer.py:183-185 | the numbered items are written in order, each with its index, number and C name |
| VariantWriter.SignalPinsIs | boardgen/variant/writer.py:181-188 | a signal's resolving pins give its `SignalList`; a signal without pins is an `IndexError` |
| VariantWriter.SignalEmittedIs | boardgen/variant/writer.py:179-188 | a signal adds `HAS_<NAME><index>` to `PORTS`, then its pin items to the port's section |
| VariantWriter.SignalsEmittedOk | boardgen/variant/writer.py:179-188 | the signals of an interface whose pins resolve are written without error, changing only the sections |
| VariantWriter.PortEmittedOk | boardgen/variant/writer.py:171-188 | the interfaces of one port type are written without error when their pins resolve |
| VariantWriter.EmissionOk | boardgen/variant/writer.py:169-188 | all ports whose pins resolve are written without error |
| VariantWriter.GenerateErrors | boardgen/variant/writer.py:76-195 | `generate` fails exactly when reading a pin or its port roles fails; writing the interfaces never raises |
| VariantWriter.LoopFinishes | boardgen/variant/writer.py:94-188 | after a successful pin loop the interfaces are written without error |
| VariantWriter.GenerateMax | boardgen/variant/writer.py:92-195 | `PINS_GPIO_MAX` comes last in `PINS` and holds the highest mapped pin number, or 0 |
| VariantWriter.InterfacesOf | boardgen/variant/writer.py:156-166 | the inner loop records the pin under each port role's interface and signal |
| VariantWriter.TextsPortsFails | boardgen/variant/writer.py:156-161 | a role text that fails ends the inner loop |
| VariantWriter.PortsOf | boardgen/variant/writer.py:151-166 | the interfaces a pin joins, over its roles in order |
| VariantWriter.PinPortsFails | boardgen/variant/writer.py:151-161 | a role that fails ends the pin's loop |
| VariantWriter.Writer.constructor | boardgen/variant/writer.py:57-62 | no pins, sections, number map or static pins |
| VariantWriter.Writer.AddArduino | boardgen/variant/writer.py:103-110 | an Arduino name's item and static pin entry |
| VariantWriter.Writer.AddMacros | boardgen/variant/writer.py:127-129 | the `MACROS` items of the short texts are appended |
| VariantWriter.Writer.RoleComments | boardgen/variant/writer.py:117-130 | the long role texts of the comment, adding the macro items on the way |
| VariantWriter.Writer.AddFeatures | boardgen/variant/writer.py:145-148 | `add_pin_feature` for each role type with a feature |
| VariantWriter.Writer.RegisterPin | boardgen/variant/writer.py:114-148 | a pin with an Arduino name: its number, macros, record, counters and features |
| VariantWriter.Writer.ProcessPin | boardgen/variant/writer.py:95-166 | one pin: read it, write its Arduino items and, with an Arduino name, register it and find its interfaces |
| VariantWriter.Writer.AddHeaders | boardgen/variant/writer.py:83-86 | the four counters start at 0 |
| VariantWriter.Writer.Generate | boardgen/variant/writer.py:76-195 | nothing without a pinout or an Arduino core; else the counters, every pin, the complete interfaces and the highest pin number |
| VariantWriter.Writer.CNameOf | boardgen/variant/writer.py:184 | the C name of the pin a number was registered under |
| VariantWriter.Writer.EmitPins | boardgen/variant/writer.py:181-188 | a signal's pin items |
| VariantWriter.Writer.EmitSignals | boardgen/variant/writer.py:179-188 | the signals of one complete interface |
| VariantWriter.Writer.EmitInterfaces | boardgen/variant/writer.py:171-188 | the complete interfaces counted and written, the others skipped |
| VariantWriter.Writer.EmitPorts | boardgen/variant/writer.py:169-188 | every port type's interfaces, in `PORT_SIGNALS` order |
| VariantWriter.Writer.AddCounters | boardgen/variant/writer.py:135-142 | the counters of a newly added pin |
| VariantWriter.Writer.IncrementIf | boardgen/variant/writer.py:137-142 | `increment_item` when the condition holds |
| VariantWriter.NumberedItemsFails | boardgen/variant/writer.py:184 | a pin whose C name cannot be looked up ends the numbered items with that error |
| VariantWriter.InterfaceCounted | boardgen/variant/writer.py:171-178 | an interface adds one to `<NAME>_INTERFACES_COUNT` exactly when it has all required signals; an incomplete one writes nothing |
| PluginUtils.UnmarkChars | ltctplugin/boardgen/utils.py:14-15 | removing the marker keeps every other character and no marker |
| PluginUtils.FieldsFirstHit | ltctplugin/boardgen/utils.py:13-29 | the search of a dict's items gives `None` exactly when no item has a hit; otherwise the first item that hits |
| PluginUtils.ItemsFirstHit | ltctplugin/boardgen/utils.py:13-29 | the same for a list's items |
| PluginUtils.UnmarkedNone | ltctplugin/boardgen/utils.py:11-30 | data without a marker anywhere gives `None` |
| PluginUtils.KeyHitFirst | ltctplugin/boardgen/utils.py:14-15 | a key holding the marker is the path, without the marker, before anything under it |
| PluginUtils.EmptyKeyDropped | ltctplugin/boardgen/utils.py:17-27 | a marker nested under a key that is the marker alone is not found: the empty path is falsy |
| PluginUtils.WalkSplit | ltctplugin/boardgen/utils.py:116-129 | walking a path is descending its `.`-separated segments in order |
| PluginUtils.JsonWalk | ltctplugin/boardgen/utils.py:116-129 | the loop computes `Walk` |
| PluginUtils.DigitsDotFree | ltctplugin/boardgen/utils.py:22-26 | a list index's text has no `.`, is numeric and reads back as the index |
| PluginUtils.FindThenWalk | ltctplugin/boardgen/utils.py:11-129 | walking the path `find_marker` gives ends at the marked key or value |

## Left out

- `Role.format` is called but not defined in `boardgen/models/role.py`. It is a function parameter (`Labels.RoleFormat`), so nothing is proved about the texts it gives.
- `Board.has_arduino_core` and the rest of `boardgen/models/board.py` are not part of this model. The board's fields the core reads are given as values, and `BoardDoc`'s fields are optional.
- `sizeof`, `Board.size_*` and `cpu_freq` use float division and formatting. Their texts are given as inputs of the README writer.
- `splitxy`/`str_to_num` evaluate Python expressions. `splitxy` is a parameter of the shape builder.
- The `json.dumps → var → json.loads` round trip in `deserialize` and `build_presets` is modelled as `var` on every string key and value. Text that would change the JSON syntax itself is not captured.
- `jsonpath` is not part of this model.
- The `<A:B:T:F>` regular expression is modelled by a scanner whose fields hold no `:` or `>`.
- `var` may loop forever (`A = "x${A}"`), and nested includes may recurse forever. Both take a `fuel` bound and give `OutOfFuel` when it runs out. Nothing is said about inputs that need more passes than the fuel allows.
- `int()` is modelled on plain decimal (and, for flash specs, hex) text. Python's acceptance of surrounding whitespace, of `_` between digits and of a sign before hex text (`int("-0x1F", 16)`) is not modelled: such text is a `ValueError` here.
- `str.upper`, `str.isnumeric` and `str.isspace` act on ASCII characters only. This includes the numeric segments of `jsonwalk` paths.
- Dict keys are compared as strings. Python's equality of `1`, `1.0` and `True` as keys does not arise in the string-keyed JSON modelled here.
- pydantic validation and coercion are not modelled. A field of the wrong type is an error, not a coerced value.
- The file reads of `load_json`, the lazy getters and the `version` lookup are left out. The directories are a map from `(dir, name)` to parsed JSON.
- `save`, `save_h` and `save_c` write files. The model stops at the generated lines.
- `pins`, `sections` and `_cache` are class attributes in Python, shared by every instance. Each object of the model has its own.
- `ReadmeWriter` and `VariantWriter` inherit their parts class in Python. Here they hold one (`parts`).
- Several objects share one `V` position in Python, and `readme/writer.py` zeroes `hex_size_len` on the board's own flash regions. `merge_dicts(x, x)` on one list object never ends in Python, since `d1.extend` consumes a generator over `d2`, which is `d1` (`boardgen/utils.py:55`). Aliasing is not modelled: positions and lists are values, `Merge.SelfMergeDoublesLists` is about two equal lists, and the writer works on its copy of the regions.
- `sorted_pins` and `sorted_sections` are never assigned in `boardgen/variant/parts.py`. The formatters take them as parameters.
- `SectionType` lacks the `ARDUINO` and `PORTS` members that `boardgen/variant/writer.py` uses. The model adds them, titled by their names.
- UI and process plumbing, the CLI, SVG drawing (`draw` methods, `draw_util.py`, `block.py`, `fill_style.py`) and the float vector maths of `vector.py` are left out. Coordinates are `real`, and positions support only `+`, `-` and negation.
- CoreBoard.Core.GetBoard: the memo keeps the manifest as it was loaded. The source rewrites the memoised dicts in place (`roles |=` on each pin, the `ARD` split, the `flash` table replaced by regions), so a second `get_board` of the same name in Python sees the processed manifest, and a failure half-way leaves it partly rewritten. Dicts shared between the manifest and the pydantic model are not modelled either.
- VariantWriter.Writer.RegisterPin: a `C_NAME` that is not a string is stored as its `str` text (`null` as `None`). The source stores the value itself, so `None` gives no port comment and `format_pins` then fails on `len(None)`.
- JsonValue.Repr: a float's `repr` is written as its exact decimal value with at most 17 fraction digits. Python's shortest round-tripping digits and its exponent form (`1e+16`, `1e-05`) are not modelled. A string's `repr` escapes quotes, backslashes and ASCII control characters; non-ASCII characters that Python treats as non-printable are kept as they are.
- JsonValue.PairOf: in a dict update from a list of pairs, a first item that is not a string is a `TypeError`. Python would store a non-string key (an int, a float, a bool or `None`), which the string-keyed dicts of this model cannot hold.
- Builder.Remap: only `pos` and `size` are split. The source also splits items 0 and 2 of `fill.lgrad` (`boardgen/shapes/base.py:21-24`); the gradient belongs to the SVG drawing, which is not part of this model.
- Builder.BuildShapes: the shape file is looked up in the directories on every call. The source reads it through the memoised `load_shape`, so in Python a shape file loaded before `add_custom_dirs` keeps coming from the memo even when a custom directory has its own copy.
- VariantWriter.Writer.Generate: after an error nothing is promised about `pins` and `sections`, which the source leaves partly filled. The command line builds a fresh writer per board and does not catch the error, so that state is never read.
- PluginUtils.FindThenWalk: proved only for data whose keys hold no `.` and do not repeat. A key with a dot splits into two segments in `jsonwalk`, so the round trip fails there in the source too.

## Findings

| source | as written | input that shows it | evidently intended | confidence | as-written member | corrected member |
|---|---|---|---|---|---|---|
| boardgen/core/core.py:103-108 | `add_custom_json` applies an in-place union to `self.presets`, a property that has no setter. The dict is merged in place, then `AttributeError` is raised, so the roles and flash tables are never merged | any call with a non-empty `presets`, `roles` or `flash` | all three given tables are merged into the core's tables | not executed | CoreBoard.AsWrittenDropsRoles | CoreBoard.AddJsonLookup |
