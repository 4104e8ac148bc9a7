# CliftonStrengths Soundboard — a verified model of its state rules

The CliftonStrengths Soundboard is a browser tool: a user picks up to five
strength themes, sets a fader level (0–100) for each, exports or imports the
selection as JSON, reads investment tips for the chosen themes, ranks a top
ten on a "dominant themes" wheel, picks two of them to read a blend text, and
opens coaching questions for a theme. Under the React markup sits a set of
small deterministic rules. This project restates those rules in Dafny and
proves what they promise.

One module per source file:

- `Soundboard` (`CliftonStrengthsSoundboard.jsx`): the selection list and the
  level store. A class `Soundboard` with fields `selected` and `levels`. It has
  the toggle with its cap of five, clamped level setting, the level-defaulting
  and reset loops, randomised levels, the export payload, and the import guard,
  filter, truncate and merge.
- `DominantThemes` (`DominantThemesTab.jsx`): the ten ranked slots, the
  duplicate guard of the slot pickers, the all-ten gate, the pick list capped
  at two, the blend-mode switch, the blend text, and the wedge angles and
  large-arc flag of the wheel. A class `DominantThemesTab` holds the state.
- `DeskFader` (`DeskFader.jsx`): the linear maps between handle offset and
  level, the clamp, the mouse-position clamp, keyboard stepping and the "too loud"
  threshold. Computed over exact `real` numbers.
- `StrengthUtils` (`strengthUtils.js`): `clamp` and the domain-colour lookup.
- `InvestmentUtils` (`investmentUtils.js`): the combined-investment text, built
  by a loop that is proved against a specification function.
- `ExploreThemeQuestions` (`ExploreThemeQuestions.jsx`): question ids, the
  Fisher–Yates shuffle (an in-place array loop, proved to be a permutation),
  the prompts shown, and the per-theme starred questions.
- `Picker` (`Picker.jsx`): the name filter, the capacity rule of the buttons,
  and the badge list.

Shared modules: `Wrappers` (`Option`), `SeqUtils` (filter, remove, capped
toggle, JavaScript `slice`), `Text` (ASCII lower-casing, `includes`, `join`),
`Strengths` (the theme record, `find`, and the key map) and `Json` (parsed JSON
values, `typeof`, and object spread of an object, an array or `null`).

The application's data tables (the 34 strengths, the investment guides, the
question bank, the theme-to-domain map) are parameters of the model. The
random draws of `Math.random` are parameters too: sequences of reals in
[0, 1). The shuffle itself is proved for any sequence of swap indices with
the index for position i in [0, i], and the draws are turned into such
indices by `Math.floor(draw * (i + 1))`.

Behaviour worth noting in the code:

- Clearing a wheel slot does not remove its key from the blend picks. `setSlot`
  changes only the slots, and the guard in `toggleBlendPick` only stops new
  picks. `DominantThemes.ClearPickedSlot` states this on the tab's state: the
  key stays picked although it is no longer among the filled slots.
- `setSlot` itself accepts a key that is already in another slot. Only the
  pickers' disabled options keep the slots distinct.
  `DominantThemes.SetSlotKeepsDistinct` proves that the guard is exactly what
  distinctness needs.
- The blend text is built from the two themes' names, blurbs and domains, as
  `generateBlend` does.
- Import does not remove duplicate keys, so a list of repeated known keys is
  accepted as it is (`Soundboard.ImportKeepsRepeats`). The class invariant is
  therefore "at most five", not "no duplicates". Toggling keeps a
  duplicate-free list duplicate-free.

## Model

| member | source | states |
|---|---|---|
| `Soundboard.ToggleSelection` | src/components/CliftonStrengthsSoundboard.jsx:55-61 | a selected key is removed with all its copies, the rest kept in order; with five selected a new key is ignored; otherwise it is appended; every other key keeps its membership; length stays at most five and a duplicate-free list stays duplicate-free |
| `Soundboard.DeselectKeepsOrder` | src/components/CliftonStrengthsSoundboard.jsx:57 | removing the key at position i of a duplicate-free list leaves the others in their original order |
| `Soundboard.DeselectKeepsOrderWithRepeats` | src/components/CliftonStrengthsSoundboard.jsx:57 | for any selection, repeats included, deselecting removes the key from each part of a split and keeps the rest in order |
| `SeqUtils.RemoveAllAppend` | src/components/CliftonStrengthsSoundboard.jsx:57 | removing a key distributes over concatenation |
| `SeqUtils.RemoveAllOne` | src/components/CliftonStrengthsSoundboard.jsx:57 | a one-key list loses its key exactly when it is the removed one, so with the append lemma the result is fixed exactly |
| `Soundboard.SelectThenDeselect` | src/components/CliftonStrengthsSoundboard.jsx:55-61 | with room to spare, toggling a new key twice gives back the original list |
| `Soundboard.PickerButtonMatchesToggle` | src/components/CliftonStrengthsSoundboard.jsx:55-60 | a picker button is disabled exactly when toggling its key would change nothing |
| `Soundboard.ExportPayload` | src/components/CliftonStrengthsSoundboard.jsx:80-83 | the payload keeps the selection, its levels have exactly the selected keys, each mapped to the stored value or to 50 when it is absent or null |
| `Soundboard.ExportAfterDefaults` | src/components/CliftonStrengthsSoundboard.jsx:80-83 | once every selected key has a number, the exported levels are the stored levels restricted to the selection |
| `Soundboard.ImportRequest` | src/components/CliftonStrengthsSoundboard.jsx:102 | an import is accepted exactly when `selected` is an array and `levels` has JavaScript type "object" (an object, an array or null) |
| `Soundboard.KnownKeys` | src/components/CliftonStrengthsSoundboard.jsx:103 | the strings of the imported list that name a known theme, and nothing else; a one-item list gives its key when that is a known string and nothing otherwise |
| `Soundboard.KnownKeysAppend` | src/components/CliftonStrengthsSoundboard.jsx:103 | the filter keeps order: the known keys of a concatenation are those of the first part followed by those of the second |
| `SeqUtils.SliceTo` | src/components/CliftonStrengthsSoundboard.jsx:103 | JavaScript `slice(0, end)`: a prefix, of length `end` when that is in range, the whole list beyond it, and counted from the back for a negative end |
| `Strengths.IsKnown` | src/components/CliftonStrengthsSoundboard.jsx:103 | true exactly when some table entry has the key |
| `Soundboard.ImportedSelection` | src/components/CliftonStrengthsSoundboard.jsx:103 | a prefix of the known keys: all of them when there are at most five, else exactly the first five |
| `Soundboard.KnownKeysOfStrs` | src/components/CliftonStrengthsSoundboard.jsx:103 | a list of known keys passes the import filter unchanged and in order |
| `Soundboard.ExportImportRoundTrip` | src/components/CliftonStrengthsSoundboard.jsx:80-105 | importing an exported payload is accepted, gives back the same selection, and merges back the same levels |
| `Soundboard.ExportedRequest` | src/components/CliftonStrengthsSoundboard.jsx:102 | an exported document passes the import guard, with its own key list and level object |
| `Soundboard.SpreadExportedLevels` | src/components/CliftonStrengthsSoundboard.jsx:105 | merging exported levels back over levels that already hold numbers changes nothing |
| `Soundboard.ImportKeepsRepeats` | src/components/CliftonStrengthsSoundboard.jsx:103 | import does not remove repeated keys |
| `Soundboard.Soundboard.constructor` | src/components/CliftonStrengthsSoundboard.jsx:23-30 | the initial five-theme selection and an empty level map |
| `Soundboard.Soundboard.ToggleSelect` | src/components/CliftonStrengthsSoundboard.jsx:55-61 | the selection becomes the toggled list, levels are untouched, at most five stay selected |
| `Soundboard.Soundboard.SetLevel` | src/components/CliftonStrengthsSoundboard.jsx:63 | stores the value clamped into [0, 100] at that key; every other level and the selection are unchanged |
| `Soundboard.Soundboard.ApplyLevelDefaults` | src/components/CliftonStrengthsSoundboard.jsx:33-41 | every selected key ends with a number; existing numbers are kept; a missing or non-number level of a selected key becomes 50; other keys are untouched |
| `Soundboard.Soundboard.Reset` | src/components/CliftonStrengthsSoundboard.jsx:65-70 | every selected key's level becomes 50; unselected keys keep theirs |
| `Soundboard.Soundboard.Randomise` | src/components/CliftonStrengthsSoundboard.jsx:72-77 | every selected key gets a whole number in 0..100; unselected keys keep their levels |
| `Soundboard.Soundboard.Export` | src/components/CliftonStrengthsSoundboard.jsx:79-83 | a state accessor: the payload of the current selection and levels, whose properties `ExportPayload` states |
| `Soundboard.Soundboard.Import` | src/components/CliftonStrengthsSoundboard.jsx:102-105 | a rejected import changes nothing; an accepted one sets the filtered, truncated selection and spreads the imported levels over the old ones without clamping |
| `Soundboard.ImportScenarioSelection` | src/components/CliftonStrengthsSoundboard.jsx:103 | an unknown key between two known ones is dropped and the order is kept |
| `Soundboard.ImportScenario` | src/components/CliftonStrengthsSoundboard.jsx:102-105 | importing two known keys around an unknown one, with one level given, selects the two and gives them 80 and then the default 50 |
| `DominantThemes.SlotValue` | src/components/DominantThemesTab.jsx:437 | the picker's empty choice clears the slot; any other choice stores that key |
| `DominantThemes.SelectedKeys` | src/components/DominantThemesTab.jsx:118-121 | the non-empty keys of the slots, no more than there are slots, as many as the slots exactly when every slot is filled |
| `DominantThemes.AllTenSelected` | src/components/DominantThemesTab.jsx:123 | with ten slots the gate opens exactly when all ten are filled |
| `DominantThemes.IsOptionDisabled` | src/components/DominantThemesTab.jsx:153-155 | an option is disabled in slot i exactly when the key sits in some other slot |
| `DominantThemes.SetSlotKeepsDistinct` | src/components/DominantThemesTab.jsx:444-449 | putting a key into a slot keeps distinct slots distinct exactly when it is empty or a non-disabled option |
| `DominantThemes.TogglePick` | src/components/DominantThemesTab.jsx:161-165 | a picked key is removed; with two picks a new key is ignored; otherwise appended; never more than two, never a duplicate |
| `DominantThemes.ThirdPickIgnored` | src/components/DominantThemesTab.jsx:163 | with two picks a third key leaves both in place |
| `DominantThemes.WithTrademark` | src/components/DominantThemesTab.jsx:32-34 | the name followed by the registered sign |
| `DominantThemes.ResolveDomain` | src/components/DominantThemesTab.jsx:174-181 | a theme's own domain, else the theme-to-domain table's entry, else none |
| `DominantThemes.Complement` | src/components/DominantThemesTab.jsx:72-75 | the "different domains" sentence exactly when both domains are non-empty and differ, else the "same-domain" one |
| `DominantThemes.ComplementSymmetric` | src/components/DominantThemesTab.jsx:72-75 | the closing sentence does not depend on the order of the two themes |
| `DominantThemes.GenerateBlend` | src/components/DominantThemesTab.jsx:66-89 | title `name(a)® + name(b)®`; the summary from a's blurb, b's lower-cased name and the domain sentence; the two fixed "what you might love" and "watch for" lines, word for word |
| `DominantThemes.CurrentBlend` | src/components/DominantThemesTab.jsx:168-184 | a blend exists exactly when there are two picks and both are known themes; it is generated from their resolved records |
| `DominantThemes.WedgesAdjoin` | src/components/DominantThemesTab.jsx:304-305 | the first wedge starts at 0, the tenth ends at 360, neighbours share their boundary |
| `DominantThemes.WedgesTile` | src/components/DominantThemesTab.jsx:304-305 | every angle in [0, 360) lies in exactly one slot's wedge |
| `DominantThemes.LargeArcFlag` | src/components/DominantThemesTab.jsx:50 | "0" exactly when the span is at most 180 degrees, else "1" |
| `DominantThemes.LargeArcOnlyForOneWedge` | src/components/DominantThemesTab.jsx:50 | for n equal wedges the long arc is used only when n is 1, so the ten wedges all use "0" |
| `DominantThemes.WedgeLabel` | src/components/DominantThemesTab.jsx:302-303 | the trademarked name of a known theme, else the raw key |
| `DominantThemes.WedgesFrom` | src/components/DominantThemesTab.jsx:300-324 | one wedge per filled slot, with that slot's key, angles, label, flag "0" and pick highlight |
| `DominantThemes.WedgesFromInSlotOrder` | src/components/DominantThemesTab.jsx:300-324 | the wedges come in strictly increasing slot order |
| `DominantThemes.WedgesFromCoverFilled` | src/components/DominantThemesTab.jsx:300-324 | every filled slot has a wedge |
| `DominantThemes.RenderWheel` | src/components/DominantThemesTab.jsx:280-324 | no wedges until all ten slots are filled, then ten, the i-th for slot i, each with its slot's key and angles |
| `DominantThemes.BuildStrengthByKey` | src/components/DominantThemesTab.jsx:94-98 | the loop builds the key map of the table, later entries winning |
| `DominantThemes.ClearedSlotLeavesSelection` | src/components/DominantThemesTab.jsx:133-139 | with distinct slots, a key whose slot is cleared is no longer among the filled slots |
| `DominantThemes.ClearPickedSlot` | src/components/DominantThemesTab.jsx:133-139 | clearing a picked key's slot on the tab leaves the key among the picks although it is no longer among the filled slots |
| `DominantThemes.DominantThemesTab.constructor` | src/components/DominantThemesTab.jsx:94-131 | ten empty slots, domain colours on, no dialog, blend mode off, no picks |
| `DominantThemes.DominantThemesTab.SetSlot` | src/components/DominantThemesTab.jsx:133-139 | only slot i changes; picks, mode, switch and dialog are untouched |
| `DominantThemes.DominantThemesTab.ClearAll` | src/components/DominantThemesTab.jsx:141-146 | all slots empty, no picks, blend mode off, dialog closed, the domain-colour switch kept |
| `DominantThemes.DominantThemesTab.OpenDetail` | src/components/DominantThemesTab.jsx:148-151 | opens the dialog on that theme and changes nothing else |
| `DominantThemes.DominantThemesTab.SetShowDomainColours` | src/components/DominantThemesTab.jsx:410-414 | sets the switch and changes nothing else |
| `DominantThemes.DominantThemesTab.ToggleBlendPick` | src/components/DominantThemesTab.jsx:157-166 | no change when blend mode is off or the key is not in a filled slot; otherwise the picks are toggled with the cap of two |
| `DominantThemes.DominantThemesTab.SetBlendMode` | src/components/DominantThemesTab.jsx:487-493 | with all ten filled, the mode is set and the picks emptied in either direction; otherwise the disabled switch changes nothing |
| `DominantThemes.DominantThemesTab.ResetPicks` | src/components/DominantThemesTab.jsx:233-237 | the picks are emptied, everything else kept |
| `DominantThemes.DominantThemesTab.Blend` | src/components/DominantThemesTab.jsx:168-184 | a state accessor: the blend of the current picks, whose properties `CurrentBlend` states |
| `DeskFader.ClampVal` | src/components/DeskFader.jsx:12 | always in [0, 100]; the identity there; 0 below and 100 above |
| `DeskFader.PosFromVal` | src/components/DeskFader.jsx:13-16 | maps levels in [0, 100] into offsets in [0, 232] |
| `DeskFader.ValFromPos` | src/components/DeskFader.jsx:17-20 | always gives a level in [0, 100] |
| `DeskFader.PosFromValEnds` | src/components/DeskFader.jsx:13-16 | the range is 320 - 88 = 232; level 100 sits at offset 0 and level 0 at 232 |
| `DeskFader.PosFromValDecreasing` | src/components/DeskFader.jsx:13-16 | a higher level is a smaller offset |
| `DeskFader.ValuePositionRoundTrip` | src/components/DeskFader.jsx:17-20 | level to offset and back gives the level, for every level in [0, 100] |
| `DeskFader.PositionValueRoundTrip` | src/components/DeskFader.jsx:13-20 | offset to level and back gives the offset, for every offset in [0, 232] |
| `DeskFader.SamplePointsRoundTrip` | src/components/DeskFader.jsx:54-61 | the self-check at 0, 25, 50, 75 and 100 holds exactly |
| `DeskFader.SetFromEvent` | src/components/DeskFader.jsx:22-29 | nothing without a track; else the mouse offset is clamped to [0, 232], so the level is in [0, 100], 100 above the track and 0 below it, and otherwise the handle follows the mouse |
| `DeskFader.OnKeyDown` | src/components/DeskFader.jsx:47-52 | ArrowUp and ArrowDown step by 2 clamped to [0, 100], also from a level off the scale (ArrowDown above 102 gives 100, ArrowUp below -2 gives 0); Home gives 0; End gives 100; any other key gives no change |
| `DeskFader.StepUpThenDown` | src/components/DeskFader.jsx:48-49 | below 98, one step up then one down returns to the same level |
| `DeskFader.TooLoud` | src/components/DeskFader.jsx:63 | for a level on the scale, the warning shows exactly when the handle sits within 11.6 pixels of the top; it shows above 100 and not below 0 |
| `DeskFader.TooLoudNearTop` | src/components/DeskFader.jsx:63 | the warning threshold 95 sits at offset 11.6; an offset shows the warning exactly when it is at or above that point |
| `StrengthUtils.Clamp` | src/utils/strengthUtils.js:11-13 | in [min, max] when min <= max; the identity in range; min below and max above |
| `StrengthUtils.ClampIdempotent` | src/utils/strengthUtils.js:11-13 | clamping twice is clamping once |
| `StrengthUtils.ClampMonotone` | src/utils/strengthUtils.js:11-13 | clamping keeps the order of its inputs |
| `StrengthUtils.StrengthColor` | src/utils/strengthUtils.js:1-9 | one of the four domain colours or "#999", and "#999" exactly for keys outside the 34 listed themes |
| `StrengthUtils.StrengthColorOfDomain` | src/utils/strengthUtils.js:2-8 | each domain's themes get that domain's colour |
| `StrengthUtils.DomainsDisjoint` | src/utils/strengthUtils.js:2-7 | no theme is listed under two domains |
| `StrengthUtils.DomainTableSize` | src/utils/strengthUtils.js:2-7 | 9 + 8 + 9 + 8 = 34 distinct themes have a colour |
| `InvestmentUtils.FirstTip` | src/utils/investmentUtils.js:10 | the first tip, and "undefined" (as a template literal prints a missing element) when the list is empty |
| `InvestmentUtils.DisplayName` | src/utils/investmentUtils.js:9 | the theme's name when the table has the key, else the raw key |
| `InvestmentUtils.Line` | src/utils/investmentUtils.js:10 | the bullet prefix, the name, ": " and the first tip; it adds no newline of its own |
| `InvestmentUtils.Lines` | src/utils/investmentUtils.js:6-12 | the pushed lines: no more than the keys, and each is the line of some input key that has tips |
| `InvestmentUtils.KeysWithTips` | src/utils/investmentUtils.js:6-8 | exactly the input keys that have a guide entry |
| `InvestmentUtils.LinesPerKey` | src/utils/investmentUtils.js:6-12 | one line per key with a guide entry, in input order |
| `InvestmentUtils.GenerateCombinedInvestment` | src/utils/investmentUtils.js:4-14 | the loop's text is the lines of the keys with tips joined by newlines |
| `InvestmentUtils.CombinedEmptyIff` | src/utils/investmentUtils.js:13 | the text is empty exactly when no key has a guide entry |
| `InvestmentUtils.CombinedNewlines` | src/utils/investmentUtils.js:13 | with newline-free names and tips, there is one newline fewer than lines, so no trailing newline |
| `ExploreThemeQuestions.MakeQuestionId` | src/components/ExploreThemeQuestions.jsx:34-36 | the theme key, then "::", then the question |
| `ExploreThemeQuestions.QuestionIdInjective` | src/components/ExploreThemeQuestions.jsx:34-36 | within one theme, two questions share an id exactly when they are equal |
| `ExploreThemeQuestions.QuestionIdAmbiguousAcrossThemes` | src/components/ExploreThemeQuestions.jsx:34-36 | across themes two different pairs can give the same id |
| `ExploreThemeQuestions.SwapIndex` | src/components/ExploreThemeQuestions.jsx:28 | a draw in [0, 1) gives a swap index in [0, i] |
| `ExploreThemeQuestions.SwapIndexCovers` | src/components/ExploreThemeQuestions.jsx:28 | every index in [0, i] is produced by some draw |
| `ExploreThemeQuestions.SwapsOf` | src/components/ExploreThemeQuestions.jsx:27-28 | the draws give one swap index per position, each in [0, i] |
| `ExploreThemeQuestions.ShuffleFromPermutes` | src/components/ExploreThemeQuestions.jsx:27-30 | the remaining swap steps keep the length and the multiset of elements |
| `ExploreThemeQuestions.Shuffled` | src/components/ExploreThemeQuestions.jsx:25-32 | the shuffle is a permutation of its input, of the same length, for any valid swap indices |
| `ExploreThemeQuestions.Shuffle` | src/components/ExploreThemeQuestions.jsx:25-32 | the in-place loop over a fresh copy computes the specified shuffle for the given swap indices, a permutation of the input of the same length |
| `ExploreThemeQuestions.ThemeQuestions` | src/components/ExploreThemeQuestions.jsx:59-60 | no questions without a theme key or for a key missing from the bank; else the bank's list |
| `ExploreThemeQuestions.Picked` | src/components/ExploreThemeQuestions.jsx:62-73 | no prompts without a theme or its questions; else min(count, n) of them for a non-negative count |
| `ExploreThemeQuestions.PickedShape` | src/components/ExploreThemeQuestions.jsx:68-71 | every prompt comes from the theme's bank, no question more often than it is there |
| `ExploreThemeQuestions.PickedAllWhenCountLarge` | src/components/ExploreThemeQuestions.jsx:68-71 | with count at least n the prompts are all the theme's questions, reordered |
| `ExploreThemeQuestions.ToggledFavourites` | src/components/ExploreThemeQuestions.jsx:90-99 | no change without a theme key; else the theme gets an entry and other themes' entries are unchanged |
| `ExploreThemeQuestions.ToggleFlipsOnlyOne` | src/components/ExploreThemeQuestions.jsx:94-98 | the starred state of that theme's question id flips and every other one is unchanged |
| `ExploreThemeQuestions.ToggleTwiceRestores` | src/components/ExploreThemeQuestions.jsx:96 | starring twice restores the starred state of every question |
| `ExploreThemeQuestions.StarShowsNote` | src/components/ExploreThemeQuestions.jsx:178 | after starring an unstarred question, the "saved" note shows for that theme |
| `ExploreThemeQuestions.ExploreDialog.constructor` | src/components/ExploreThemeQuestions.jsx:46-52 | closed, no prompts, no favourites |
| `ExploreThemeQuestions.ExploreDialog.Randomise` | src/components/ExploreThemeQuestions.jsx:62-73 | the prompts become the specified pick; favourites and the open flag are unchanged |
| `ExploreThemeQuestions.ExploreDialog.SetOpen` | src/components/ExploreThemeQuestions.jsx:75-79 | opening draws new prompts; closing keeps them |
| `ExploreThemeQuestions.ExploreDialog.ToggleStar` | src/components/ExploreThemeQuestions.jsx:90-99 | the favourites become the toggled map; nothing else changes |
| `Picker.Filtered` | src/components/Picker.jsx:11-14 | exactly the strengths whose lower-cased name contains the lower-cased query; an empty query keeps all |
| `Picker.FilteredKeepsOrder` | src/components/Picker.jsx:12 | filtering keeps the table's order |
| `Picker.FilteredOne` | src/components/Picker.jsx:12 | a one-theme table keeps its theme exactly when it matches, so with the order lemma each match appears once, in table order |
| `Picker.FilteredIgnoresQueryCase` | src/components/Picker.jsx:12 | the query's letter case does not matter |
| `Picker.CanAddMore` | src/components/Picker.jsx:16 | true exactly when there is room for one more theme within the cap |
| `Picker.ButtonDisabled` | src/components/Picker.jsx:32-33 | disabled exactly when the key is unselected and no more can be added, so a selected key can always be deselected |
| `Picker.Badges` | src/components/Picker.jsx:52-55 | one badge per known selected key, each the name of a table entry; all keys known gives one per key |
| `Picker.BadgesKeepOrder` | src/components/Picker.jsx:52-55 | badges follow the selection's order |
| `Picker.BadgesOne` | src/components/Picker.jsx:52-55 | a single key gives its theme's name when known and no badge otherwise, so with the order lemma the badge list is exactly the known keys' names in order |
| `Strengths.Find` | src/utils/investmentUtils.js:9 | the first table entry with that key, if any |
| `Strengths.ByKey` | src/components/DominantThemesTab.jsx:94-98 | the keys are exactly the table's keys and each maps to an entry with that key |
| `Strengths.ByKeyAgreesWithFind` | src/components/DominantThemesTab.jsx:94-98 | with unique keys, the map and the first-match search agree |
| `Json.TypeOf` | src/components/CliftonStrengthsSoundboard.jsx:102 | "object" exactly for null, arrays and objects |
| `Json.Member` | src/components/CliftonStrengthsSoundboard.jsx:102 | a field is present exactly when the value is an object that has it |
| `Json.NatToStringInjective` | src/components/CliftonStrengthsSoundboard.jsx:105 | distinct array indices give distinct keys when an array is spread |
| `Json.SpreadItems` | src/components/CliftonStrengthsSoundboard.jsx:105 | spreading an array adds its index keys and leaves other keys alone |
| `Json.SpreadItemsAtIndex` | src/components/CliftonStrengthsSoundboard.jsx:105 | index j's key holds item j |
| `Json.Spread` | src/components/CliftonStrengthsSoundboard.jsx:105 | an object's fields override the old ones, null adds nothing, no old key is lost |
| `Text.ToLower` | src/components/Picker.jsx:12 | same length, each character lower-cased |
| `Text.Includes` | src/components/Picker.jsx:12 | true exactly when the query occurs at some position |
| `Text.Join` | src/utils/investmentUtils.js:13 | no parts give "", one part gives itself |
| `Text.JoinSeparatorCount` | src/utils/investmentUtils.js:13 | n parts free of the separator give n - 1 separators |
| `Text.JoinEmpty` | src/utils/investmentUtils.js:13 | non-empty parts join to "" exactly when there are none |

## Left out

- JSX, CSS class strings, layout, framer-motion, and the presentational components (`ui/*`, `EmptyState`, `SelectedThemeChips`, `DeskChannel`, `InvestModal`): they render and compute nothing.
- `polarToCartesian`, the coordinate strings of `arcPath` and `segmentMidpoint`: floating-point trigonometry. Only the wedge angles and the large-arc flag are modelled.
- `localStorage`, `useLocalStorage`, `safeParseJson`, `JSON.parse` and `JSON.stringify`: persistence and text I/O. Every state starts from its default, and import takes already-parsed JSON.
- The Blob download and the file `<input>` of export and import: file I/O.
- `Math.random`: the draws are parameters in [0, 1).
- Mouse listeners, the `dragging` ref, React effects and their scheduling: the defaulting effect is a method the caller runs, and opening the dialog runs the randomise step at once.
- The `console.assert` self-checks: the fader's sample points (DeskFader.jsx:54-61) are proved by `DeskFader.SamplePointsRoundTrip`, and the bound of five selected (CliftonStrengthsSoundboard.jsx:50) is part of the `Soundboard` class invariant. The checks on the data tables (CliftonStrengthsSoundboard.jsx:46-49 and :51: 34 distinct keys, entries in `COMMUNICATION_STYLES` and `BALCONY_BASEMENT`, a colour for every key) are not proved, because the tables are parameters.
- The data tables (`src/data/strengths`, `src/data/investmentGuides.js`, the question bank, `THEME_TO_DOMAIN`): they are parameters; src/data/strengths is not part of this model.
- `getThemeColourClass` and the wedge fill colours: the class-name helper is not part of this model.
- The `domainLine` string in `generateBlend`: it is computed but never used.
- Text.ToLower: lower-cases ASCII letters only, because full Unicode case mapping is outside the model.
- Soundboard.Soundboard.Import: object keys from the JavaScript prototype chain (such as "constructor") are not modelled; a JSON object is a plain map.
- StrengthUtils.StrengthColor: prototype-chain keys of the colour table are not modelled, for the same reason.
- DeskFader.SetFromEvent: JavaScript numbers are modelled as exact reals, without NaN, infinities or rounding.
- Levels and payload values that are not JSON (functions, `undefined` inside objects) cannot occur in a parsed file and are not modelled.
- The `count` prop's default of 4: the count is a parameter of every operation that draws prompts.
