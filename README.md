# Reminder registry of the prayer and medication reminder app

This project models, in Dafny, the reminder definitions a user of the app can
change, and proves properties of them. There are two such registries.

- **The medication list** of the medication screen. It starts with one seeded
  medication. Its add form has a draft name and time. `handleAddMedication`
  refuses a blank name. Otherwise it appends an enabled row, resets the draft
  and closes the form. `toggleMedication(id)` negates `enabled` on every row
  whose id matches, and leaves every other row as it was.
- **The prayer switches** of the settings panel. These are five enable flags:
  fajr, dhuhr, asr, maghrib and isha. `handlePrayerToggle(prayer)` hands the
  page's setter a new record with that one flag negated. The page owns the
  record and starts with fajr and isha on.

Modules:

- `JsString` (`js_string.dfy`) models JavaScript's `String.prototype.trim` for
  the add guard. The whitespace set is ECMAScript's WhiteSpace and
  LineTerminator code points. The module proves that `trim` returns the empty
  string exactly when the input is blank.
- `Medications` (`medications.dfy`) holds the rows, the draft, and the pure
  list functions `Added` and `Toggled` with lemmas about them. It also holds
  the class `MedicationReminder`, whose fields are the screen's three state
  variables and whose methods are its handlers. Its `Valid()` invariant says
  that every row has a name with a visible character and a time ending in the
  morning marker.
- `SettingsPanel` (`settings_panel.dfy`) holds the prayer record, the toggle,
  and the JavaScript-object view of the record. It proves that the toggle is
  the object spread the panel performs.
- `Index` (`index.dfy`) is the page that owns the prayer record and receives
  each new record from the panel.

The app always appends `' ص'` (the Arabic "morning" marker) to a stored time,
whatever the hour, and does not convert the time to 12-hour form.
`AddedEntry` states this behaviour as written.

## Model

| member | source | states |
|---|---|---|
| `JsString.TrimStart` | src/components/MedicationReminder.tsx:23 | the result is the suffix of the input that starts at its first non-whitespace character; every dropped character is whitespace |
| `JsString.TrimEnd` | src/components/MedicationReminder.tsx:23 | the result is the prefix of the input that ends at its last non-whitespace character; every dropped character is whitespace |
| `JsString.TrimEmptyIffBlank` | src/components/MedicationReminder.tsx:23 | `trim` returns the empty string if and only if every character of the input is whitespace |
| `JsString.TrimTruthyIffVisible` | src/components/MedicationReminder.tsx:23 | the guard `name.trim()` is truthy if and only if the name has some non-whitespace character |
| `JsString.TrimIsInfix` | src/components/MedicationReminder.tsx:23 | the trimmed string is an infix `s[i..j]` of the input: `s[i..]` is what `TrimStart` keeps and the result is what `TrimEnd` keeps of that, so every character outside the infix is whitespace |
| `JsString.Trim` | src/components/MedicationReminder.tsx:23 | `name.trim()` is no longer than the name, and a non-empty result neither starts nor ends with whitespace; `TrimEmptyIffBlank` and `TrimIsInfix` give the rest |
| `Medications.AcceptsName` | src/components/MedicationReminder.tsx:23 | the add guard `newMedication.name.trim()` holds if and only if the name has some non-whitespace character |
| `Medications.VisibleAccepted` | src/components/MedicationReminder.tsx:23 | a name with a non-whitespace character passes the add guard |
| `Medications.NewEntry` | src/components/MedicationReminder.tsx:26-31 | the new row is enabled, carries the given id and the name as typed, and its time is the draft time followed by the marker `' ص'` |
| `Medications.Added` | src/components/MedicationReminder.tsx:24-32 | a successful add gives one more row; the old rows keep their positions and contents; the last row is the new entry |
| `Medications.AddedEntry` | src/components/MedicationReminder.tsx:27-30 | the new row carries the given id, is enabled, keeps the name exactly as typed (untrimmed) and stores the draft time followed by `' ص'`, for any draft time |
| `Medications.Flipped` | src/components/MedicationReminder.tsx:40 | a row's `enabled` flag changes if and only if its id equals the argument; its id, name and time never change |
| `Medications.Toggled` | src/components/MedicationReminder.tsx:39-41 | the list keeps its length and order; every row with the given id has `enabled` negated; every other row is unchanged; ids, names and times are unchanged everywhere |
| `Medications.ToggledTwice` | src/components/MedicationReminder.tsx:39-41 | toggling the same id twice restores the original list |
| `Medications.ToggledAbsent` | src/components/MedicationReminder.tsx:39-41 | toggling an id that no row carries leaves the list unchanged |
| `Medications.ToggledCommute` | src/components/MedicationReminder.tsx:39-41 | toggles of two ids commute |
| `Medications.SeedWellFormed` | src/components/MedicationReminder.tsx:7-14 | the seeded list satisfies the list invariant: a visible name and a time ending in `' ص'` |
| `Medications.AddedWellFormed` | src/components/MedicationReminder.tsx:23-32 | an add that passes the guard preserves the list invariant |
| `Medications.ToggledWellFormed` | src/components/MedicationReminder.tsx:39-41 | a toggle preserves the list invariant |
| `Medications.MedicationReminder.constructor` | src/components/MedicationReminder.tsx:7-20 | the initial state is the one seeded enabled medication with id 1, a hidden form and the draft `{name: '', time: '09:00'}` |
| `Medications.MedicationReminder.HandleAddMedication` | src/components/MedicationReminder.tsx:22-36 | with a blank draft name, the list, draft and form flag are unchanged; otherwise the list becomes `Added` of the old list, the draft is reset to `{'' , '09:00'}` and the form is hidden; the invariant is kept |
| `Medications.MedicationReminder.ToggleMedication` | src/components/MedicationReminder.tsx:38-42 | the list becomes `Toggled` of the old list; the draft and the form flag are unchanged; the invariant is kept |
| `Medications.MedicationReminder.OpenAddForm` | src/components/MedicationReminder.tsx:109 | the form is shown; the list and the draft are unchanged; the invariant is kept |
| `Medications.MedicationReminder.CancelAddForm` | src/components/MedicationReminder.tsx:99 | the form is hidden; the list and the draft are unchanged; the invariant is kept |
| `Medications.MedicationReminder.EditDraftName` | src/components/MedicationReminder.tsx:82 | only the draft's name changes, to the typed value; the invariant is kept |
| `Medications.MedicationReminder.EditDraftTime` | src/components/MedicationReminder.tsx:88 | only the draft's time changes, to the input's value; the invariant is kept |
| `SettingsPanel.Toggle` | src/components/SettingsPanel.tsx:22-27 | the named prayer's flag is negated and the other four flags are unchanged |
| `SettingsPanel.SettingsExtensional` | src/components/SettingsPanel.tsx:6-12 | a settings record is determined by its five flags |
| `SettingsPanel.ToggleTwice` | src/components/SettingsPanel.tsx:22-26 | toggling the same prayer twice yields the original record |
| `SettingsPanel.ToggleCommute` | src/components/SettingsPanel.tsx:22-26 | toggles of two prayers commute |
| `SettingsPanel.SwitchKeys` | src/components/SettingsPanel.tsx:60-73 | the switch list has one switch per prayer, in order, and each passes its own prayer's key; the five keys are distinct |
| `SettingsPanel.KeysDistinct` | src/components/SettingsPanel.tsx:61-65 | the five keys differ pairwise (by length, and fajr and isha by their first letter) |
| `SettingsPanel.KeyOnto` | src/components/SettingsPanel.tsx:60-66 | every key of the switch list belongs to some prayer |
| `SettingsPanel.AsObject` | src/components/SettingsPanel.tsx:6-12 | as a JavaScript object, the record's own keys are exactly the five prayers' keys, and each key holds that prayer's flag |
| `SettingsPanel.SpreadToggle` | src/components/SettingsPanel.tsx:23-26 | the object spread with a computed key makes that key an own entry and keeps every other entry; an own key gets its flag negated; a missing key that names an inherited `Object.prototype` property reads as truthy and becomes `false`; any other missing key reads as `undefined` and becomes `true` |
| `SettingsPanel.SpreadKeepsKeys` | src/components/SettingsPanel.tsx:24-25 | toggling a prayer's own key adds no key to the object |
| `SettingsPanel.SameKeyValue` | src/components/SettingsPanel.tsx:24-25 | the record toggle and the object spread agree on each prayer's key |
| `SettingsPanel.ToggleIsSpread` | src/components/SettingsPanel.tsx:22-26 | the record toggle equals the object spread the panel performs, and the spread keeps the object's key set, which is exactly the five keys |
| `SettingsPanel.SpreadOfUnknownKey` | src/components/SettingsPanel.tsx:22-26 | a key outside the five would give the record a sixth entry, `true` unless the key names an inherited `Object.prototype` property, where it is `false`; the record keeps its shape only because every switch passes one of the five keys |
| `Index.IndexPage.constructor` | src/pages/Index.tsx:12-18 | the page starts with fajr and isha enabled and dhuhr, asr and maghrib disabled |
| `Index.IndexPage.HandlePrayerToggle` | src/components/SettingsPanel.tsx:22-27 | one new record, the toggle of the current settings, replaces the page's settings: the named flag is negated and the other four are unchanged |
| `Index.IndexPage.SetPrayerSettings` | src/pages/Index.tsx:34 | the page's settings become exactly the record the panel handed over |

## Left out

- The reminder scheduling engine is not part of this model. That covers next-occurrence calculation, due checks, interval grids, day rollover, coalescing of missed occurrences and after-prayer offsets. The source has no code for any of it. The one-second timer in `src/pages/Index.tsx:20-26` only refreshes the clock shown on screen.
- `Date.now()` as the id source: it is a clock read, so the new id is a parameter of `HandleAddMedication`. Ids are not assumed unique, so `Toggled` flips every matching row.
- Medication ids are JavaScript numbers. They are modelled as integers, which is what the seed (1) and `Date.now()` produce. `NaN` and fractional ids are not modelled.
- `JsString.IsWhitespace` uses the Unicode 15 "Zs" list. A JavaScript engine built on a different Unicode version may differ. JavaScript strings are UTF-16, while Dafny characters are Unicode scalar values, so lone surrogates are not modelled. Every whitespace character is in the Basic Multilingual Plane, so the guard is otherwise unaffected.
- React's state batching and the handlers' captured render-time state are not modelled. Each handler is one atomic step on the current state.
- The time input's value format (`HH:MM`) is not checked. The model, like the source, appends the marker to whatever string the input holds.
- `SettingsPanel.ObjectPrototypeKeys` lists the properties of the standard `Object.prototype` up to ECMAScript 2023. A prototype changed at run time or extended by an engine is not modelled. `SpreadToggle` reads a missing key through that list only.
- The panel never changes `prayerSettings` in place. The model gets this from value semantics: `Toggle` returns a new datatype value.
- The time and date formatting in `src/components/PrayerHeader.tsx` is not modelled. It delegates to the locale-dependent `toLocaleTimeString` and `toLocaleDateString`.
- The hard-coded prayer-time tables and text dictionaries are static display data, so they are not modelled. The `Switch` in `src/components/PrayerTimes.tsx` has no change handler.
- The panel's `language`, `country` and `reminderTime` values are never updated. `notificationsEnabled` is set directly by its switch. None of these is modelled.
- Rendering, styling, text direction, tab switching (`src/pages/Index.tsx:28-47`, `src/components/BottomNavigation.tsx`) and `capacitor.config.ts` are not modelled, because they are presentation and deployment only.
