# WaterLog hydration store, modelled in Dafny

WaterLog is an iOS hydration tracker. The user logs drinks, the app adds up
today's intake, compares it with a daily goal and keeps the log across
launches. This project models the part of the app that holds that state:
the `WaterData` store and the `DrinkLog` record it keeps.

- `drink_log.dfy`, module `DrinkLogs`: the record. It holds a 128-bit
  identifier, a date and an amount in millilitres. The amount is a 64-bit
  `Int` with no other bound, so zero and negative amounts are accepted. A
  record is an immutable value.
- `log_codec.dfy`, module `LogCodec`: the JSON encoding and decoding of the
  record list that the store persists. The JSON text is abstracted to
  integer words: a header counting the records, then one block of three
  words per record, in list order. The model keeps the coder's failure
  cases and its round trip. In the word model each list has exactly one
  encoding, so re-encoding decoded data also gives back the same data;
  real JSON does not have that property (see "Left out").
- `water_data.dfy`, module `WaterStore`: the store. It has
  - pure definitions for `totalToday`, a left fold like `reduce`;
  - `progress`, as an exact fraction;
  - the save and load steps and the daily reset, as functions on values;
  - the class `WaterData`. Its fields `targetGoal`, `dailyLogs` (newest
    first) and `dailyLogsData` (the persisted slot) are updated in place
    by `AddLog`, `CheckAndResetLogs`, `SaveLogs`, `LoadLogs`, `ClearAll`
    and the constructor (`init`: load, then reset);
  - the client method `DailyScenario`. It presses the +200 and +500
    quick-add buttons of the main screen (View/MainView.swift:73-80), then
    runs "delete all". It checks that the total is 700 and the progress is
    700/2000 before the delete, and that the total is 0 after it.
- `wrappers.dfy`, module `Wrappers`: `Option`.

Outside inputs are parameters:
- the current instant (`Date()`);
- the new record's identifier (`UUID()`);
- the calendar test "is this date today" (`Calendar.current.isDateInToday`);
- the values found in the two persisted slots at start-up.

`ClearAll` models the "delete all records" button of the settings
screen. That button empties `dailyLogs` and then calls `saveLogs`. As
written, the view calls `saveLogs`, which `WaterData` declares `private`
(ViewModel/WaterData.swift:80, View/SettingsView.swift:82).

Where the intended behaviour and the code differ, the model follows the code:
- `progress` is documented as a value between 0.0 and 1.0
  (ViewModel/WaterData.swift:32). It is capped at 1 but is not clamped at 0. A negative total
  against a positive goal gives a negative fraction.
- With a negative goal, `progress` is 1 exactly when the total is at or
  below the goal.
- A failed load leaves the list as it was rather than emptying it. At
  start-up the list is empty anyway.
- The day is checked only at start-up. `AddLog` does not check it.

## Model

| member | source | states |
|---|---|---|
| DrinkLogs.PrependFreshKeepsDistinct | ViewModel/WaterData.swift:54-56 | A new record whose identifier is fresh, put in front of a list with pairwise distinct identifiers, leaves them pairwise distinct. |
| LogCodec.Encode | ViewModel/WaterData.swift:81-82 | Encoding fails exactly when some date is not finite. On success, the data has a header counting the records and three words per record. |
| LogCodec.DecodeWords | ViewModel/WaterData.swift:89-90 | Decoded records always have finite dates, and each decoded record uses exactly three words. |
| LogCodec.Decode | ViewModel/WaterData.swift:89-90 | Empty data (the slot's default) never decodes. Whatever decodes has finite dates and exactly the encoded length. |
| LogCodec.WordsAt | Model/DrinkLog.swift:9-19 | Record k is encoded at words 3k to 3k+3 with its id, date and amount, so the data keeps the list's order. |
| LogCodec.DecodeEncode | Model/DrinkLog.swift:9-19 | Round trip: an encodable list encodes, and decoding the result gives the same records in the same order. |
| LogCodec.EncodeDecode | Model/DrinkLog.swift:9-19 | Reverse round trip, in the word model only: data that decodes is exactly the encoding of the list it decodes to. |
| WaterStore.TotalConcat | ViewModel/WaterData.swift:27-30 | The total of a concatenation is the sum of the two totals. |
| WaterStore.TotalPrepend | ViewModel/WaterData.swift:27-30 | Putting a record in front raises the total by exactly its amount. |
| WaterStore.WaterData.TotalToday | ViewModel/WaterData.swift:27-30 | The total of an empty list is 0. |
| WaterStore.ProgressOf | ViewModel/WaterData.swift:33-37 | Progress is 0 when the goal is 0 and never exceeds 1. Otherwise it is min(1, total/goal), compared by cross-multiplication. It is 1 exactly when total >= goal > 0 (or total <= goal < 0). It is negative for a negative total against a positive goal. |
| WaterStore.WaterData.Progress | ViewModel/WaterData.swift:33-37 | On the store's fields: progress is 0 when the goal is 0 and never exceeds 1. It is 1 exactly when the total reaches a positive goal, or is at or below a negative goal. It is negative for a negative total against a positive goal. |
| WaterStore.Persisted | ViewModel/WaterData.swift:80-85 | After a save, the slot decodes to the list whenever the list is encodable. Otherwise the slot keeps its previous data. |
| WaterStore.Restored | ViewModel/WaterData.swift:88-93 | A failed decode leaves the list untouched. A successful one makes the list the decoded records, which are encodable; in the word model they save back to the same data. |
| WaterStore.ResetStep | ViewModel/WaterData.swift:62-73 | The list is cleared exactly when it is non-empty and its first record is not dated today. The state is otherwise unchanged. A clearing reset persists the empty list. Afterwards the list is empty or starts with today's record. |
| WaterStore.ResetIdempotent | ViewModel/WaterData.swift:62-73 | Running the reset twice has the same effect as running it once. |
| WaterStore.ResetLooksAtHeadOnly | ViewModel/WaterData.swift:64 | Two lists whose first records have the same date are reset alike. |
| WaterStore.WaterData.constructor | ViewModel/WaterData.swift:13-46 | The goal is the stored goal, or 2000 by default. The records are loaded from the stored data, which is empty by default, and then reset. Afterwards the list is empty or its first record is dated today. |
| WaterStore.WaterData.AddLog | ViewModel/WaterData.swift:52-59 | The new record is at index 0 with the given amount and date. The list grows by one and the old records follow in order. The total rises by exactly the amount. The goal is untouched. The slot holds the save of the new list. Fresh identifiers keep identifiers distinct. |
| WaterStore.WaterData.CheckAndResetLogs | ViewModel/WaterData.swift:62-74 | The new list and slot are the reset step of the old ones. Afterwards no stale record is at the front. |
| WaterStore.WaterData.ClearAll | View/SettingsView.swift:79-83 | The list is empty, the total is 0, and the slot decodes to the empty list. |
| WaterStore.WaterData.SaveLogs | ViewModel/WaterData.swift:80-85 | The slot becomes the encoding of the list. If encoding fails, it keeps its old data. Nothing else changes. |
| WaterStore.WaterData.LoadLogs | ViewModel/WaterData.swift:88-93 | The list becomes the decoded data. If decoding fails, it stays as it was. Nothing else changes. |

## Left out

- WaterStore.Total: the sum is an unbounded integer. In the source, `+` on `Int` traps when a partial sum leaves the 64-bit range, so very large custom amounts would crash the app.
- LogCodec.EncodeDecode: the reverse round trip holds only for the integer-word layout, where each list has one encoding. The JSON decoder also accepts whitespace, keys in any order, unknown keys and lower-case UUID strings. The encoder writes none of these back (it writes UUIDs in upper case), so a decode followed by an encode can change the bytes of the persisted slot. The same applies to the "saves back to the same data" clause of WaterStore.Restored.
- WaterStore.ProgressOf: progress is an exact fraction, not a `Double`. The floating-point rounding of the division is not modelled.
- Dates are integer ticks rather than floating-point intervals. The calendar's day boundary and time zone are behind the `isToday` parameter.
- The JSON text itself, meaning bytes, key names and number formatting, is abstracted to integer words. Only the coder's failure cases and its encode-then-decode round trip are modelled.
- `@AppStorage` and `@Published` are plain fields. Change notification to SwiftUI views is not modelled.
- The settings screen's `TextField` writes `targetGoal` directly, and `@AppStorage` persists the write. The model treats the field as its own persisted slot, with no separate setter.
- Write failures of the settings store (UserDefaults) are not modelled. A save that encodes always lands.
- The SwiftUI views are not modelled: the main screen's layout and the parsing of the custom amount with `Int(...)`. Neither is the settings form or the app entry point.
- Notification permission and scheduling are not modelled. They are asynchronous calls into the notification framework. The 30/60/120-minute interval choice is presentation only.
