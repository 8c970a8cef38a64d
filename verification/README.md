# Blood-pressure follow-up: classifier, trend and record store

This project is a Dafny model of two parts of a blood-pressure follow-up application, with proofs about them.

**The reading classifier** (`client/src/lib/blood-pressure-utils.ts`).
- A fixed table of eight categories after the 2023 WHO hypertension scale: optimal, normal, high-normal, grade 1 to 3, isolated systolic, isolated diastolic. Each row has a name, display strings, a risk level and recommendations.
- An ordered, first-match-wins rule ladder that picks a row for a (systolic, diastolic) reading.
- A status view with two flags: urgent, and needs consultation.
- The `"<s>/<d> mmHg"` display formatter.
- A trend detector. It compares the mean of the last three readings with the mean of the up-to-three readings before them, using a 5 mmHg band.

**The in-memory store `MemStorage`** (`server/storage.ts`).
- Seven tables (users, measurements, subscriptions, payments, notifications, medications, messages). Each maps an id to a record and has its own id counter. Counters start at 1 and only grow.
- Create operations take the counter as the new id. `createUser`, `createMeasurement`, `createSubscription` and `createPayment` store empty optional strings as null. `createMedication` and `createMessage` store the payload as given.
- `getUser` is a plain `Map.get`. The list and search reads enumerate a table in insertion order, filter it, and sort it with JavaScript's stable sort. Some also take a limit or the first match.
- Update operations change a status, a payment time, a read flag, or a medication's fields in place.
- Delete operations remove one key.

Modules:
- `Wrappers`: `Option`.
- `JsArrays`: the JavaScript array and `Map` behaviour both parts rely on. It covers `slice` with negative indices, `find`, `filter`, the stable `sort`, and `Map` value order.
- `BloodPressure`, `BloodPressureFormat` and `BloodPressureTrend`: pure functions and lemmas.
- `StorageRecords`: the record types and per-record updates.
- `Storage`: the class `MemStorage`.
  - Its maps and counters are fields.
  - Its mutators are methods with `modifies` frames. Their contracts state the whole new state.
  - Its getters are functions over the fields.
  - Its invariant `Valid()` says every table is keyed by its records' ids, all below the table's counter.

Choices made by the model:
- Readings are integers.
- Trend means are exact rationals. `MeanDifference` turns the ±5 comparisons into integer cross-multiplications.
- Timestamps are integer milliseconds. The clock is the `now` parameter of every operation that reads it. The constructor reads it once for the whole seed; see "## Left out".
- The seed's date-time literals are taken as UTC.
- A `Map`'s iteration order is its insertion order. Ids are issued in increasing order and `set` on an existing key keeps its place, so that order is ascending id order.
- The sort is stable (ECMAScript 2019). A "newest first" comparator `b.t - a.t` sorts ascending by `-t`. Records with equal keys keep ascending id order.
- Each getter's contract gives its result's members and its order. `JsArrays.OrderedUnique` shows that these two facts determine the result completely.

## Model

| member | source | states |
|---|---|---|
| BloodPressure.WhoTableShape | client/src/lib/blood-pressure-utils.ts:14-142 | the table has eight rows; the row at each category's position carries that category's name and its fixed risk (optimal and normal low, high-normal moderate, grade-1 and both isolated high, grade-2 and grade-3 critical); different categories have different names |
| BloodPressure.NamesDistinct | client/src/lib/blood-pressure-utils.ts:14-142 | no two rows of the table share a name |
| BloodPressure.FindUniqueName | client/src/lib/blood-pressure-utils.ts:147 | in a table without repeated names, `find(cat => cat.name === name)` returns the one row with that name |
| BloodPressure.LookupFindsRow | client/src/lib/blood-pressure-utils.ts:146-176 | every name the ladder looks up is in the table, so each `find(...)!` succeeds and returns the category's own row |
| BloodPressure.ClassifyBloodPressure | client/src/lib/blood-pressure-utils.ts:144-177 | total on all integer pairs; always returns a table row, namely the row of the category the ordered ladder selects, with that category's name and risk level |
| BloodPressure.RuleCategory | client/src/lib/blood-pressure-utils.ts:146-176 | the first-match-wins ladder, rule for rule; an isolated pattern is chosen exactly when one value reaches its hypertension threshold (140 systolic, 90 diastolic) and the other does not |
| BloodPressure.IsolatedPrecedence | client/src/lib/blood-pressure-utils.ts:146-152 | isolated-systolic exactly when systolic >= 140 and diastolic < 90 (so 200/80 is not grade-3); isolated-diastolic exactly when systolic < 140 and diastolic >= 90 |
| BloodPressure.GradeRegion | client/src/lib/blood-pressure-utils.ts:146-165 | a grade is returned exactly when both values are elevated; there grade-3 iff systolic >= 180 or diastolic >= 110, else grade-2 iff systolic >= 160 or diastolic >= 100, else grade-1 |
| BloodPressure.LowRegion | client/src/lib/blood-pressure-utils.ts:167-176 | below both thresholds: high-normal iff systolic >= 130 or diastolic >= 85; otherwise normal iff 120..129 over 80..84; otherwise optimal (so 125/75 is optimal) |
| BloodPressure.BoundaryCases | client/src/lib/blood-pressure-utils.ts:144-177 | the boundary readings 119/79, 125/75, 120/80, 129/84, 130/85, 139/89, 140/90, 159/99, 160/100, 179/109, 180/110, 150/70, 200/80 and 110/95 land in their categories |
| BloodPressure.LadderRiskMonotone | client/src/lib/blood-pressure-utils.ts:144-177 | the ladder's risk never drops when systolic rises with diastolic fixed, or diastolic rises with systolic fixed ("the highest level decides") |
| BloodPressure.RiskMonotone | client/src/lib/blood-pressure-utils.ts:144-177 | the same monotonicity for the risk level of the row the classifier returns |
| BloodPressure.GetBloodPressureStatus | client/src/lib/blood-pressure-utils.ts:179-195 | copies name, label, colours, risk, recommendations and ranges from the classified row; urgent iff the risk is critical; needs consultation iff the risk is high or critical |
| BloodPressure.LadderFlags | client/src/lib/blood-pressure-utils.ts:192-193 | on the ladder, critical risk is exactly grade-2 or grade-3, i.e. both values elevated and one at its grade-2 threshold; high-or-critical is exactly either value at its hypertension threshold |
| BloodPressure.StatusFlags | client/src/lib/blood-pressure-utils.ts:179-195 | urgency is exactly grade-2 or grade-3, consultation exactly systolic >= 140 or diastolic >= 90, and urgency implies consultation |
| BloodPressureFormat.NatToDecimal | client/src/lib/blood-pressure-utils.ts:198 | the decimal digits of a natural number, at least one, without a leading zero |
| BloodPressureFormat.IntToDecimal | client/src/lib/blood-pressure-utils.ts:198 | an integer in a template literal: non-empty and free of '/' |
| BloodPressureFormat.DecimalRoundTrip | client/src/lib/blood-pressure-utils.ts:198 | reading back the digits of n gives n |
| BloodPressureFormat.IntRoundTrip | client/src/lib/blood-pressure-utils.ts:198 | reading back the text of any integer, negative ones included, gives it back |
| BloodPressureFormat.FormatBloodPressure | client/src/lib/blood-pressure-utils.ts:197-199 | the display string ends in " mmHg" and is at least eight characters long |
| BloodPressureFormat.FormatRoundTrip | client/src/lib/blood-pressure-utils.ts:197-199 | the display string splits at its first '/' and parses back to the same reading |
| BloodPressureFormat.FormatInjective | client/src/lib/blood-pressure-utils.ts:197-199 | different readings are displayed differently |
| BloodPressureFormat.FormatExample | client/src/lib/blood-pressure-utils.ts:197-199 | 128/82 is displayed as "128/82 mmHg" |
| BloodPressureTrend.GetBloodPressureTrend | client/src/lib/blood-pressure-utils.ts:201-226 | insufficient data exactly when there are fewer than four readings |
| BloodPressureTrend.Recent | client/src/lib/blood-pressure-utils.ts:204 | `slice(-3)`: the last three readings, or all of them when there are fewer |
| BloodPressureTrend.Older | client/src/lib/blood-pressure-utils.ts:205 | `slice(-6, -3)`: the up-to-three readings just before the last three, none when there are at most three |
| BloodPressureTrend.Mean | client/src/lib/blood-pressure-utils.ts:209-217 | the exact mean of a sum over a positive count: times the count it gives the sum back |
| BloodPressureTrend.SumSystolic | client/src/lib/blood-pressure-utils.ts:210-211 | the left-to-right `reduce` sum of the systolic values; folding from the right (first reading plus the sum of the rest) gives the same total |
| BloodPressureTrend.SumDiastolic | client/src/lib/blood-pressure-utils.ts:215-216 | the same for the diastolic values |
| BloodPressureTrend.SumBounds | client/src/lib/blood-pressure-utils.ts:209-217 | the `reduce` sums of systolic and of diastolic values lie between the count times the smallest and the count times the largest value |
| BloodPressureTrend.MeanBetween | client/src/lib/blood-pressure-utils.ts:209-217 | a sum between count·lo and count·hi has its mean between lo and hi |
| BloodPressureTrend.MeanBounds | client/src/lib/blood-pressure-utils.ts:209-217 | both window means lie between the smallest and the largest value averaged |
| BloodPressureTrend.ConstantSums | client/src/lib/blood-pressure-utils.ts:209-217 | the sums of n identical readings are n times their values |
| BloodPressureTrend.OnlyLastSixCount | client/src/lib/blood-pressure-utils.ts:204-205 | readings earlier than the last six never change the trend |
| BloodPressureTrend.MeanDifference | client/src/lib/blood-pressure-utils.ts:209-224 | a difference of means above 5 (below -5) is exactly a cross-multiplied integer difference above 5·r·o (below -5·r·o) |
| BloodPressureTrend.TrendDecision | client/src/lib/blood-pressure-utils.ts:209-225 | the decision on integer sums: increasing iff either value rises by more than 5 (checked first), decreasing iff neither rises and either falls by more than 5, stable otherwise |
| BloodPressureTrend.ConstantIsStable | client/src/lib/blood-pressure-utils.ts:201-226 | four or more identical readings are stable |
| BloodPressureTrend.StepTrend | client/src/lib/blood-pressure-utils.ts:219-225 | for three readings at one level then three at another, the trend in terms of the two levels |
| BloodPressureTrend.TrendExamples | client/src/lib/blood-pressure-utils.ts:223-224 | 120→130 is increasing, 130→120 decreasing, and a systolic rise of 10 with a diastolic fall of 10 is increasing |
| JsArrays.Slice | client/src/lib/blood-pressure-utils.ts:204-205 | `slice`, whose indices count from the end when negative and are clamped to the sequence, never returns more elements than it was given |
| JsArrays.SliceFromStart | server/storage.ts:302 | `slice(0, k)` is the first k elements for k >= 0 and drops the last -k for k < 0 |
| JsArrays.KeysInOrder | server/storage.ts:298 | the keys of a map in a range, each once and ascending: the iteration order of a `Map` filled in increasing id order |
| JsArrays.ValuesInKeyOrder | server/storage.ts:298 | `Array.from(map.values())`: every value listed is a stored value |
| JsArrays.Find | server/storage.ts:282 | `find` returns nothing exactly when no element matches, else the first match |
| JsArrays.FindLowest | server/storage.ts:332 | on a list in ascending id order, `find` returns the match with the lowest id |
| JsArrays.Filter | server/storage.ts:299 | `filter` keeps exactly the matching elements, each as often as before at most |
| JsArrays.FilterKeepsIncreasing | server/storage.ts:299 | `filter` keeps ascending id order |
| JsArrays.InsertBy | server/storage.ts:300 | one insertion step keeps the list sorted and adds exactly the one element |
| JsArrays.SortBy | server/storage.ts:300 | `sort` returns a sorted permutation of its input |
| JsArrays.SortByStable | server/storage.ts:300 | `sort` is stable: equal keys keep ascending id order |
| JsArrays.OrderedUnique | server/storage.ts:297-300 | two lists with the same members, both ordered by (key, id), are equal |
| JsArrays.PrefixComesFirst | server/storage.ts:302 | a prefix of an ordered list holds its first elements: nothing left out comes before anything kept |
| JsArrays.ValuesInKeyOrderExact | server/storage.ts:298 | `Array.from(map.values())` lists every stored record once, in ascending id order |
| StorageRecords.NullIfEmpty | server/storage.ts:289-290 | `value \|\| null`: null exactly when the value is absent or empty, else the value |
| StorageRecords.UserRecord | server/storage.ts:285-295 | the new user has the given id and creation time and every field of the payload, with an empty email or phone stored as null |
| StorageRecords.MeasurementRecord | server/storage.ts:315-325 | the new measurement has every field of the payload, with an empty context or comment stored as null |
| StorageRecords.SubscriptionRecord | server/storage.ts:335-344 | the new subscription has every field of the payload, with an empty payment method stored as null |
| StorageRecords.PaymentRecord | server/storage.ts:362-372 | the new payment has every field of the payload, with an empty transaction id stored as null |
| StorageRecords.NotificationRecord | server/storage.ts:393-402 | the new notification has every field of the payload; it is read only when the payload says true |
| StorageRecords.MedicationRecord | server/storage.ts:421-429 | the new medication is the payload with its id and creation time; no default is filled in, so an absent `isActive` or `reminderEnabled` stays absent |
| StorageRecords.MessageRecord | server/storage.ts:460-468 | the new message is the payload with its id and creation time; no default is filled in, so an absent type, `isRead` or priority stays absent |
| StorageRecords.WithSubscriptionStatus | server/storage.ts:346-354 | only the status changes |
| StorageRecords.WithPaymentStatus | server/storage.ts:374-385 | the status changes; the payment time becomes now exactly when the status is "completed" and is otherwise unchanged; nothing else changes |
| StorageRecords.NotificationRead | server/storage.ts:404-412 | the notification is read afterwards and nothing else changes |
| StorageRecords.MessageRead | server/storage.ts:470-477 | the message is read afterwards and nothing else changes |
| StorageRecords.ApplyMedicationChangesAsWritten | server/storage.ts:431-438 | `Object.assign` as written: it differs from the corrected update in the id alone, which it takes from the changes when they carry one |
| StorageRecords.ApplyMedicationChanges | server/storage.ts:431-438 | each field present in the changes overwrites the record's and every other field is kept; the id never changes |
| StorageRecords.MedicationChangesLaws | server/storage.ts:431-438 | an empty update changes nothing; applying an update twice is applying it once |
| StorageRecords.UpdateAt | server/storage.ts:404-412 | an update by id changes the record under that id, if any, and no other key |
| StorageRecords.UpdateAtIdempotent | server/storage.ts:404-412 | updating with an idempotent change is idempotent |
| StorageRecords.MarkReadIdempotent | server/storage.ts:404-412 | marking a notification, or a message (lines 470-477), read twice is marking it read once |
| Storage.PaidTime | server/storage.ts:359 | `paidAt?.getTime() \|\| 0`: an unpaid payment counts as paid at time 0, a paid one at its payment time |
| Storage.ComparatorOrders | server/storage.ts:300 | what each comparator puts first (also lines 312, 359, 390, 418, 448 and 457): the newer record for `b.t - a.t`, the older for `a.t - b.t`, the smaller id on a tie |
| Storage.UnpaidPaymentOrder | server/storage.ts:356-360 | an unpaid payment sorts after every payment paid at a positive time and before every one paid at a negative time |
| Storage.SeedUsersValid | server/storage.ts:84-123 | the seeded patient, doctor and administrator sit under ids 1-3, below the user counter 4 |
| Storage.SeedSubscriptionsValid | server/storage.ts:126-140 | the seeded subscription sits under id 1, below the counter 2 |
| Storage.SeedMeasurementsValid | server/storage.ts:143-171 | the five seeded measurements sit under ids 1-5, below the counter 6 |
| Storage.SeedNotificationsValid | server/storage.ts:174-198 | the two seeded notifications sit under ids 1-2, below the counter 3 |
| Storage.SeedMedicationsValid | server/storage.ts:202-235 | the two seeded medications sit under ids 1-2, below the counter 3 |
| Storage.SeedMessagesValid | server/storage.ts:238-261 | the two seeded messages sit under ids 1-2, below the counter 3 |
| Storage.SeedPaymentsValid | server/storage.ts:264-274 | the seeded payment sits under id 1, below the counter 2 |
| Storage.Query | server/storage.ts:297-300 | enumerate, filter, sort: exactly the matching records, ascending by key, ties in ascending id order |
| Storage.FirstMatch | server/storage.ts:281-283 | enumerate and `find`: nothing exactly when no record matches, else the matching record with the lowest id |
| Storage.MemStorage.constructor | server/storage.ts:65-275 | the tables hold the seeded records (users 1-3, measurements 1-5, subscription 1, payment 1, notifications 1-2, medications 1-2, messages 1-2) and each counter is one past its last seeded id; the invariant holds |
| Storage.MemStorage.GetUser | server/storage.ts:277-279 | a user exactly when the id is a key, and then the record stored there, whose id is that id |
| Storage.MemStorage.GetUserByUsername | server/storage.ts:281-283 | nothing exactly when no user has that username, else the user with that username and the lowest id, i.e. the earliest created |
| Storage.MemStorage.CreateUser | server/storage.ts:285-295 | the new user gets the counter as id, above every existing id; it is added and nothing else in the table changes; the counter grows by one |
| Storage.MemStorage.MeasurementHistory | server/storage.ts:297-300 | exactly the patient's measurements, newest first, ties in id order |
| Storage.MemStorage.GetMeasurements | server/storage.ts:297-303 | a prefix of the newest-first history: all of it without a limit or with 0, the first `limit` for a positive limit, all but the last -limit for a negative one |
| Storage.MemStorage.GetMeasurementsByDateRange | server/storage.ts:305-313 | exactly the patient's measurements taken within [start, end], both ends included, oldest first |
| Storage.MemStorage.CreateMeasurement | server/storage.ts:315-325 | fresh id above every existing one; the normalised record is added under it; every other key and table unchanged; counter + 1 |
| Storage.MemStorage.DeleteMeasurement | server/storage.ts:327-329 | true exactly when the id was present; only that key is removed |
| Storage.MemStorage.GetSubscription | server/storage.ts:331-333 | nothing exactly when the patient has no subscription, else the patient's earliest-created one |
| Storage.MemStorage.CreateSubscription | server/storage.ts:335-344 | fresh id; the normalised record is added; counter + 1 |
| Storage.MemStorage.UpdateSubscriptionStatus | server/storage.ts:346-354 | on an unknown id returns nothing and changes nothing; otherwise only that record's status changes and the updated record is returned |
| Storage.MemStorage.GetPayments | server/storage.ts:356-360 | exactly the subscription's payments, most recently paid first, unpaid ones counted as paid at 0 |
| Storage.MemStorage.CreatePayment | server/storage.ts:362-372 | fresh id; the normalised record is added; counter + 1 |
| Storage.MemStorage.UpdatePaymentStatus | server/storage.ts:374-385 | on an unknown id returns nothing and changes nothing; otherwise sets the status, stamps the payment time with now only for "completed", and changes no other record |
| Storage.MemStorage.GetNotifications | server/storage.ts:387-391 | exactly the user's notifications, newest first |
| Storage.MemStorage.CreateNotification | server/storage.ts:393-402 | fresh id; the record is added unread unless the payload says read; counter + 1 |
| Storage.MemStorage.MarkNotificationAsRead | server/storage.ts:404-412 | true exactly when the id exists; that notification becomes read and nothing else changes |
| Storage.MemStorage.GetMedications | server/storage.ts:415-419 | exactly the patient's medications, most recently created first |
| Storage.MemStorage.CreateMedication | server/storage.ts:421-429 | fresh id; the record is added; counter + 1 |
| Storage.MemStorage.UpdateMedication | server/storage.ts:431-438 | on an unknown id returns nothing and changes nothing; otherwise applies the changes to that record alone, keeping its id |
| Storage.MemStorage.DeleteMedication | server/storage.ts:440-442 | true exactly when the id was present; only that key is removed |
| Storage.MemStorage.GetMessages | server/storage.ts:445-449 | exactly the messages the user sent or received, newest first |
| Storage.MemStorage.GetConversation | server/storage.ts:451-458 | exactly the messages between the two users in either direction, oldest first |
| Storage.MemStorage.CreateMessage | server/storage.ts:460-468 | fresh id; the record is added; counter + 1 |
| Storage.MemStorage.MarkMessageAsRead | server/storage.ts:470-477 | true exactly when the id exists; that message becomes read and nothing else changes |
| Storage.ConversationSymmetric | server/storage.ts:451-458 | a conversation is the same list whichever of its two users asks |
| Storage.LimitKeepsNewest | server/storage.ts:297-303 | with a positive limit, no measurement left out is newer than one returned |
| Storage.SeedHistoryNewestFirst | server/storage.ts:143-171 | the demo patient's newest-first history is the five seeded readings in id order |
| Storage.SeedConversationOldestFirst | server/storage.ts:238-259 | the demo conversation, oldest first, is message 2 then message 1 |
| Storage.UpdateWithOtherIdBreaksKeying | server/storage.ts:431-438 | updating a record as written with changes carrying another id leaves a table that is no longer keyed by id |
| Storage.DeletedIdIsNotReused | server/storage.ts:315-329 | create, delete, create: the second id is larger than the first, the first stays absent and the second is stored |

## Findings

| source | as written | input that shows it | evidently intended | confidence | as-written member | corrected member |
|---|---|---|---|---|---|---|
| server/storage.ts:431-438 | `Object.assign(medication, updates)` copies every property of the `Partial<Medication>`, the `id` included, while the record stays under its old key; the route hands over the request body unchanged | `updateMedication(1, { id: 7 })` on the seeded store: the map key 1 now holds a medication whose id is 7, so `deleteMedication(7)` returns false | an update never changes a record's id, so every table stays keyed by its records' ids | likely; not executed | Storage.UpdateWithOtherIdBreaksKeying | StorageRecords.ApplyMedicationChanges |

`StorageRecords.ApplyMedicationChangesAsWritten` is the update as written. `Storage.MemStorage.UpdateMedication` uses the corrected update and keeps `Valid()`.

## Left out

- Promises and `async` are not modelled. Each operation is a plain method or function.
- The HTTP routes, the database schema, authentication and the React client are not part of this model.
- The clock is not modelled. `new Date()` is the `now` parameter.
- The seed subscription's end date is `now` plus two days of 86 400 000 ms each. Local-time daylight-saving shifts in `setDate` are not modelled.
- Seed date-time literals are read as UTC. The source reads them in the server's local time zone.
- The store hands out its records by reference. A caller that mutates a returned record changes the stored one. This model works on record values and does not capture that aliasing.
- `Storage.MemStorage.constructor` takes the seed's nine clock readings as one instant `now`. They are the three users' creation times, the base of the subscription's end date, the subscription's creation time, and each notification's and each medication's creation time. The seeded users, notifications and medications therefore tie on `createdAt`, and the newest-first reads list the two notifications, and the two medications, in id order. In the source the clock may tick between those readings, and the later record would then come first.
- `Storage.MemStorage.constructor` installs the seeded tables and counters as their final state. It does not replay the seed one `++` at a time. The source starts every counter at 1, and the seed leaves them at the values stated.
- Create operations take payloads shaped like the insert schemas. Nullable columns and columns with a default are `Option` fields, and a payload carries no id and no creation time. A request body handed to `createMedication` or `createMessage` untyped could still carry an `id`. The spread would then override the counter's id with it, and the record would be stored under that id, replacing any record already there. A `createdAt` in such a body is overwritten by `new Date()`. Such untyped bodies, and fields of the wrong type, are not part of this model.
- `undefined` as a value inside update objects is not modelled. An absent field leaves the record's value as it is.
- Property order of the `Object.assign` target is not modelled. Records are values, not objects.
- Trend means are exact rationals. Floating-point rounding exactly at a ±5 difference is not modelled.
- Readings are integers. Non-integer values, NaN, and the gaps between the integer range checks that only non-integers fall into are not modelled.
- `limit` is an optional integer. A fractional limit, which `slice` truncates, is not modelled.
- Dates are integers. An invalid `Date`, whose time is NaN, is not modelled.
- `BloodPressureFormat.IntToDecimal` writes the exact decimal digits of every integer. JavaScript numbers are doubles: from 2^53 on, a whole number prints as the shortest digits that read back as the same double, padded with zeros (`${2**60}` is "1152921504606847000"). From 10^21 on, JavaScript switches to exponent notation. Neither is modelled.
- Numbers are modelled as exact unbounded integers. The end of double precision at 2^53 is not modelled. This affects the `current*Id++` counters of `server/storage.ts`, which stop growing at 2^53 so that ids would repeat (every create's contract promises a strictly larger id forever). It also affects the trend sums, whose `reduce` rounds once a partial sum passes 2^53, and the formatter above. No reading, timestamp or id comes near 2^53.
- The display strings of the category table and the seed's French texts are kept as constants. Nothing is proved about them beyond the category names.
