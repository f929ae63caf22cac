# Dough-Tracker core in Dafny

This project models the logic of the Dough-Tracker firmware, an ESP32 device that
watches bread dough rise. A time-of-flight sensor looks down into the container. The
firmware turns each distance reading into a dough thickness and a rise percentage, and
keeps a bounded history of them. It posts a Discord notification when the rise first
passes 50%, 100% and 200%.

The model covers four components, plus the route that chains them:

- `sampler.dfy` (module `Sampler`) models `SensorManager::getAveragedDistance`.
  - Up to ten raw readings are taken; a failed read arrives as 0 and is dropped.
  - The valid readings are exchange-sorted in place in an `array`, and the median is taken.
  - Readings more than 12% from the median are discarded, and the floored mean of the rest is returned.
  - The method is proved equal to a functional reference `AveragedDistance`. The sampler's promises are proved about that function.
- `calibration.dfy` (module `Calibration`) models `CalibrationManager`.
  - It holds the offset-adjusted, zero-clamped zero point and dough height, stored in 16-bit fields.
  - The thickness and rise arithmetic are pure functions. They narrow to `int16_t`/`uint16_t` exactly as the C++ does. The one exception is the initial thickness: the manager and the measure route use the corrected form of the first Findings row.
  - The manager itself is a class whose setters and resets update its fields. It also has a `stored` record for the durable "dough" namespace.
- `history.dfy` (module `History`) models the `DataManager` ring buffer.
  - The buffer is a 100-slot `array` with a write cursor and a count.
  - A ghost `history` holds every append since the last reset. The class invariant `Valid` ties each retained append to its slot.
  - Logical index 0 is the oldest retained point.
- `webhook.dfy` (module `Webhook`) models the `WebhookManager` threshold gate.
  - Three "reached" flags and the last rise percentage make up the state.
  - A pure transition function `Step` defines one `checkAndNotify` call. The class method `CheckAndNotify` is proved to agree with it.
  - Lemmas about `Step` and about runs of calls state the gate's guarantees.
- `cycle.dfy` (module `Cycle`) models the measure route of the web server: sample, then thickness, then rise, then append. It also holds two worked scenarios through all components.
- `ints.dfy` (module `Ints`) defines the C fixed-width types and the narrowing conversions.

Inputs the firmware gets from hardware or libraries are parameters:

- the successive sensor readings (`readings`) and whether the sensor is initialised;
- the clock value (`now`);
- whether WiFi is connected (`wifiUp`);
- whether the Discord POST succeeded (`sendOk`).

## Model

| member | source | states |
|---|---|---|
| Ints.ToInt16 | CalibrationManager.cpp:23 | storing into `int16_t` keeps every value in range and otherwise wraps modulo 2^16 |
| Ints.ToUInt16 | CalibrationManager.cpp:70 | storing into `uint16_t` keeps every value in range and otherwise reduces modulo 2^16 |
| Ints.ToUInt32 | DataManager.cpp:103 | `unsigned long` subtraction keeps in-range results and otherwise reduces modulo 2^32 |
| Sampler.ClampSamples | SensorManager.cpp:65-69 | the number of reads never exceeds the 10-slot working array; a request of at most 10 is honoured exactly and a larger one takes exactly 10 |
| Sampler.ValidReadings | SensorManager.cpp:76-89 | the readings kept are exactly the non-zero ones; a failed read (0) never enters the working set |
| Sampler.Insert | SensorManager.cpp:98-106 | inserting adds exactly one element to the multiset |
| Sampler.InsertSorted | SensorManager.cpp:98-106 | inserting into a sorted sequence keeps it sorted |
| Sampler.SortSeq | SensorManager.cpp:98-106 | the reference sort returns a sorted permutation of its input |
| Sampler.SortedUnique | SensorManager.cpp:98-106 | two sorted permutations of the same readings are equal, so the in-place sort yields exactly the reference order |
| Sampler.ExchangeSort | SensorManager.cpp:98-106 | after the nested exchange loops, the valid prefix of the array is sorted ascending and is a permutation of what it held; slots beyond it are untouched |
| Sampler.ExchangeStep | SensorManager.cpp:100-104 | a swap of a smaller later element into slot i keeps slot i minimal so far, keeps the settled prefix, and keeps the elements |
| Sampler.KeepStep | SensorManager.cpp:100 | leaving a larger element in place keeps slot i minimal so far |
| Sampler.SettleNext | SensorManager.cpp:99-105 | after a full inner pass, slot i holds the minimum of the remaining readings |
| Sampler.SettledSorted | SensorManager.cpp:98-106 | when the outer loop ends, the prefix is sorted |
| Sampler.PrefixPermutation | SensorManager.cpp:98-106 | the array keeps its multiset and its slots beyond the prefix are unchanged, so the prefix keeps its multiset |
| Sampler.Accepted | SensorManager.cpp:115-125 | a reading is accepted exactly when it passes the 12% test against the median; a reading deviating by more is excluded; sorted input gives sorted output |
| Sampler.CollectValid | SensorManager.cpp:72-89 | the collecting loop leaves exactly the non-zero readings, in read order, at the front of the array |
| Sampler.SumAccepted | SensorManager.cpp:111-125 | the trimming loop's `sum` and `acceptedSamples` are the sum and number of the readings within 12% of the median |
| Sampler.SortAndTrim | SensorManager.cpp:98-136 | sorting, median selection and trimming return the trimmed mean of the sorted readings |
| Sampler.GetAveragedDistance | SensorManager.cpp:59-137 | the method returns `AveragedDistance`; it is 0 exactly when the sensor is uninitialised or every read failed |
| Sampler.SumBounds | SensorManager.cpp:119 | a sum of readings lies between count × smallest and count × largest |
| Sampler.DivBounds | SensorManager.cpp:133 | the floored quotient of such a sum stays between the bounds |
| Sampler.MeanBounds | SensorManager.cpp:133-136 | the floored mean of sorted accepted readings lies between the smallest and largest of them, is positive, and is within 12% of the median |
| Sampler.ToleranceBetween | SensorManager.cpp:116-118 | the 12% band around the median is an interval |
| Sampler.Median | SensorManager.cpp:108 | the median is one of the valid readings |
| Sampler.TrimmedMean | SensorManager.cpp:108-136 | on sorted positive readings, the trimmed mean lies between the smallest and largest reading and within 12% of the median |
| Sampler.AveragedDistance | SensorManager.cpp:59-137 | the reference result is never negative, and is 0 exactly when the sensor is uninitialised or every read failed |
| Sampler.AcceptedMean | SensorManager.cpp:108-136 | on sorted positive readings the accepted set is non-empty, its ends lie within the readings' ends, and its floored mean lies between its ends and within 12% of the median |
| Sampler.TrimmedMeanBounds | SensorManager.cpp:108-136 | the median always passes its own test, so some reading is accepted and the all-rejected fallback (lines 127-131) never runs; the result is the floored mean of the accepted readings |
| Sampler.AveragedDistanceSpec | SensorManager.cpp:59-137 | the result is 0 iff the sensor is uninitialised or no read succeeded; otherwise the median is one of the valid readings, the accepted set is non-empty and is exactly the valid readings within 12% of it, and the result is their floored mean, between the smallest and largest accepted and within 12% of the median; the result fits in `uint16_t` |
| Sampler.SameElements | SensorManager.cpp:98-106 | sorting neither adds nor drops a value |
| Sampler.ConstantTrimmedMean | SensorManager.cpp:115-136 | a run of equal positive readings has that reading as its trimmed mean |
| Sampler.AllEqualReadings | SensorManager.cpp:115-136 | if every successful reading equals d, the result is d |
| Calibration.AdjustedDistance | CalibrationManager.cpp:23-28 | raw + offset is stored in `int16_t` and clamped at 0; without overflow it is `max(0, raw + offset)`, and it never exceeds 32767 |
| Calibration.DoughThickness | CalibrationManager.cpp:90-118 | 0 when not calibrated; never above 32767 |
| Calibration.DoughThicknessSpec | CalibrationManager.cpp:90-118 | without 16-bit overflow, thickness is `max(0, zeroPoint - max(0, distance + offset))` and never exceeds the zero point |
| Calibration.DoughThicknessMonotone | CalibrationManager.cpp:90-118 | for a fixed calibration, thickness never increases as the distance grows |
| Calibration.InitialDoughThicknessAsWritten | CalibrationManager.cpp:66-74 | 0 when either reference is unset; the true difference when the dough reading does not exceed the zero point |
| Calibration.InitialThicknessWraps | CalibrationManager.cpp:70 | with a dough reading beyond the zero point, the code as written returns 65536 + zeroPoint - doughHeight, more than the container depth |
| Calibration.InitialDoughThickness | CalibrationManager.cpp:66-74 | the corrected initial thickness never exceeds the zero point, is positive exactly when 0 < doughHeight < zeroPoint, and agrees with the code whenever doughHeight <= zeroPoint |
| Calibration.RisePercentage | CalibrationManager.cpp:120-126 | 0 when the initial thickness is 0; otherwise the rise r satisfies r × initial = 100 × (current − initial) |
| Calibration.RisePercentageSpec | CalibrationManager.cpp:120-126 | the rise is 0 when the initial thickness is 0; otherwise it is negative iff current < initial and 0 iff they are equal; it reaches 50/100/200% iff 2c >= 3i, c >= 2i, c >= 3i |
| Calibration.RiseAtLeast | CalibrationManager.cpp:125 | `(d / i) * 100 >= p` iff `100 d >= p i` for positive i |
| Calibration.RiseAtMost | CalibrationManager.cpp:125 | `(d / i) * 100 <= p` iff `100 d <= p i` for positive i |
| Calibration.ScaleByPositive | CalibrationManager.cpp:125 | multiplying by a positive quantity preserves the comparison |
| Calibration.CalibrationManager.IsCalibrated | CalibrationManager.cpp:128-130 | under the class invariant, calibrated exactly when the zero point is positive |
| Calibration.CalibrationManager.constructor | CalibrationManager.h:55-59 | every field starts at 0 and the flag starts false |
| Calibration.CalibrationManager.Begin | CalibrationManager.cpp:155-169 | every scalar is read back from the store and the flag becomes `zeroPoint > 0` |
| Calibration.CalibrationManager.Save | CalibrationManager.cpp:171-183 | the store then holds the four scalars |
| Calibration.CalibrationManager.SetZeroPoint | CalibrationManager.cpp:21-36 | stores the adjusted reading as zero point and sets the flag; dough height, offset and calibration time are unchanged; calibrated afterwards iff the adjusted reading is positive; the store is updated |
| Calibration.CalibrationManager.SetDoughHeight | CalibrationManager.cpp:42-60 | stores the adjusted reading as dough height and the clock as calibration time; zero point, flag and offset are unchanged; needs no calibration |
| Calibration.CalibrationManager.CalculateDoughThickness | CalibrationManager.cpp:90-118 | 0 unless calibrated; never above 32767; without 16-bit overflow, `max(0, zeroPoint - max(0, distance + offset))`, never above the zero point |
| Calibration.CalibrationManager.GetInitialDoughThickness | CalibrationManager.cpp:66-74 | returns the corrected value of the first Findings row: never above the zero point, positive exactly when 0 < doughHeight < zeroPoint, equal to the code when doughHeight <= zeroPoint, and 0 (not the wrapped value) when doughHeight > zeroPoint |
| Calibration.CalibrationManager.SetOffset | CalibrationManager.cpp:80-84 | only the offset changes; stored references are not recomputed |
| Calibration.CalibrationManager.ResetDoughHeight | CalibrationManager.cpp:132-138 | zeroes only the dough height and calibration time |
| Calibration.CalibrationManager.Reset | CalibrationManager.cpp:140-153 | zeroes every scalar, clears the flag and clears the store |
| History.Slot | DataManager.cpp:51-53 | the intended physical slot of a logical index is always inside the buffer |
| History.SlotOfAppend | DataManager.cpp:51-53 | logical index i of the count retained points lives in the slot written by append number `appended - count + i` |
| History.SlotsDistinct | DataManager.cpp:51-53 | distinct retained points occupy distinct slots |
| History.TruncatedRemainder | DataManager.cpp:52 | C++ `% 100` gives a remainder strictly between -100 and 100: the Euclidean remainder for a non-negative dividend; for a negative one, 0 on a multiple of 100 and otherwise the Euclidean remainder minus 100 |
| History.SlotAsWritten | DataManager.cpp:52 | the slot as computed by the code: the intended one while `writeIndex + index >= count`; otherwise 65536 minus the remainder of `count - writeIndex - index`, or 0 when that remainder is 0 |
| History.SlotAsWrittenBeforeWrap | DataManager.cpp:52 | before the buffer first wraps, the code and the intent agree |
| History.SlotAsWrittenEscapes | DataManager.cpp:52 | once the buffer is full, every index that must wrap gives a slot at or beyond 65437, outside the 100-slot array |
| History.Window | DataManager.cpp:34-36 | the retained window has `min(appends, 100)` entries |
| History.WindowAppend | DataManager.cpp:28-36 | an append extends the window and drops its oldest entry once it is full |
| History.RingAppend | DataManager.cpp:28-32 | writing an append into the slot of its number keeps every other retained append in place |
| History.NextSlot | DataManager.cpp:32 | advancing the cursor modulo 100 tracks the append count |
| History.DataManager.constructor | DataManager.h:59-63 | empty history, count, cursor and first time 0 |
| History.DataManager.Begin | DataManager.cpp:8-14 | zeroes the scalars and forgets the history; slot contents remain |
| History.DataManager.AddMeasurement | DataManager.cpp:16-39 | appends the stamped point; writes exactly slot `writeIndex` and no other; sets the first time only when the buffer was empty; the retained window gains the point and drops its oldest entry once full; keeps `count == min(appends, 100)` and `writeIndex == appends % 100` |
| History.DataManager.GetCount | DataManager.cpp:41-43 | the number of retained points, `min(appends, 100)` |
| History.DataManager.GetMeasurement | DataManager.cpp:45-54 | an index at or beyond the count gives the zeroed point; otherwise the index-th oldest retained point |
| History.DataManager.HasData | DataManager.cpp:120-122 | true exactly when something was appended since the reset |
| History.DataManager.GetInitialThickness | DataManager.cpp:84-87 | 0 when empty, else the thickness of the oldest retained point |
| History.DataManager.GetCurrentThickness | DataManager.cpp:89-92 | 0 when empty, else the thickness of the latest append |
| History.DataManager.GetCurrentRisePercentage | DataManager.cpp:94-97 | 0 when empty, else the rise of the latest append |
| History.DataManager.GetLastMeasurementTime | DataManager.cpp:124-127 | 0 when empty, else the timestamp of the latest append |
| History.DataManager.GetElapsedTime | DataManager.cpp:99-104 | 0 when empty, else `now - first timestamp` in 32-bit unsigned arithmetic |
| History.DataManager.Reset | DataManager.cpp:106-118 | zeroes the scalars and every slot |
| History.OldestAfterWrap | DataManager.cpp:45-54 | after 100 + k appends, index 0 is append k+1 and index 99 is the latest |
| Webhook.Thresholds.Mark | WebhookManager.cpp:79-104 | marking a level sets that flag and no other |
| Webhook.HighestDue | WebhookManager.cpp:79-104 | a send is chosen only for a due level with no higher level due, and nothing is chosen exactly when no level is due |
| Webhook.Step | WebhookManager.cpp:61-107 | a send is attempted only on an open call whose reading did not fall, and is for the highest due level; no flag is cleared; the last rise becomes the reading exactly when the gate is open |
| Webhook.StepClosed | WebhookManager.cpp:62-70 | disabled, unconfigured or offline: no state change, not even the last rise, and no send |
| Webhook.StepFalling | WebhookManager.cpp:73-76 | a falling reading only records itself and sends nothing |
| Webhook.StepSendsHighestDue | WebhookManager.cpp:78-104 | a send for a level is attempted iff the gate is open, the reading did not fall, that level is due, and no higher level is due |
| Webhook.StepFlags | WebhookManager.cpp:78-106 | a flag is set afterwards iff it was set before or its send was attempted and succeeded; a send implies the level was pending and its bound met; the last rise becomes the reading whenever the gate is open |
| Webhook.StepAtMostOne | WebhookManager.cpp:78-104 | at most one flag turns on per call |
| Webhook.StepTopBranch | WebhookManager.cpp:79-86 | taking the 200% branch leaves the 100% and 50% flags unchanged, whether or not the send succeeds |
| Webhook.RunKeepsReached | WebhookManager.cpp:61-107 | no sequence of calls turns a flag off |
| Webhook.DeliveredAtMostOnce | WebhookManager.cpp:61-107 | over any sequence of calls without a reset, the calls that hand a level's notification to the sender and have it delivered number at most one, and exactly one if the level's flag ends up set having started clear |
| Webhook.WebhookManager.constructor | WebhookManager.h:44-53 | empty URL, enabled, all flags clear, last rise 0 |
| Webhook.WebhookManager.SetWebhookURL | WebhookManager.cpp:25-29 | only the URL changes |
| Webhook.WebhookManager.IsConfigured | WebhookManager.cpp:35-37 | configured exactly when the URL is non-empty |
| Webhook.WebhookManager.SetEnabled | WebhookManager.cpp:39-43 | only the enabled flag changes |
| Webhook.WebhookManager.CheckAndNotify | WebhookManager.cpp:61-107 | the new thresholds and the send attempted are exactly those of `Step` from the old state; URL and enabled flag are unchanged |
| Webhook.WebhookManager.ResetThresholds | WebhookManager.cpp:109-116 | clears the three flags and sets the last rise to 0 |
| Webhook.WebhookManager.SendTestNotification | WebhookManager.cpp:118-131 | a send is attempted iff configured and online (enabling is not required); the result is true iff it was attempted and succeeded |
| Cycle.HandleMeasure | MyWebServer.cpp:184-215 | refused while uncalibrated or with the sensor down, leaving the history unchanged; otherwise returns the averaged distance of five reads, its thickness and its rise against the (corrected) initial thickness of the calibration, and appends that point to the history |
| Cycle.SteadyReadings | SensorManager.cpp:115-136 | five reads of 50 mm average to 50 mm |
| Cycle.ScenarioArithmetic | CalibrationManager.cpp:90-126 | zero point 80 mm, dough at 60 mm and a reading of 50 mm give thickness 30 mm against an initial 20 mm, a rise of exactly 50% |
| Cycle.RiseScenario | MyWebServer.cpp:198-205 | calibrating at 80 mm and 60 mm and then measuring 50 mm five times gives a rise of exactly 50% |
| Cycle.NotifyScenario | WebhookManager.cpp:61-107 | a 50% rise at the start of a cycle sends the 50% notification, and repeating the reading sends nothing |
| Cycle.OffsetAndInvalidBaseline | CalibrationManager.cpp:21-74 | an offset of -5 mm moves an 80 mm zero point to 75 mm; a dough reading of 90 mm beyond an 80 mm zero point yields 0, where the code yields 65526 |

## Left out

- Serial logging, `delay`, `millis` and sensor/I2C initialisation (SensorManager.cpp:7-39) are hardware side channels. `getDistance` becomes the `readings` input, in which 0 stands for a timeout.
- Floating point is idealised.
  - The rise percentage is a `real`.
  - The 12% deviation test is the exact integer test `100 * |x - median| <= 12 * median`.
  - IEEE rounding at the exact boundary is not modelled.
- The clock `time(nullptr)` is the `now` parameter, truncated to `unsigned long` (32 bits on the ESP32).
- Durable storage.
  - The calibration namespace is the `stored` field of `CalibrationManager`. The `Preferences` library itself is not modelled.
  - The webhook URL, the enabled flag and the three threshold flags are also persisted by the firmware (WebhookManager.cpp:162-190). `WebhookManager::begin` loads them. The model leaves this storage out: a fresh `WebhookManager` starts from the header defaults.
  - `lastRisePercentage` is never persisted by the firmware. After a reboot it starts again from 0.
- The Discord HTTP POST (WebhookManager.cpp:133-160) is the `sendOk` input. WiFi status is the `wifiUp` input. The message texts are not modelled.
- JSON and time formatting (`getAllMeasurementsJSON`, `formatTime24H`, DataManager.cpp:56-82, 129-136) depend on `localtime`/`strftime`.
- Plain field reads are the class fields themselves and need no member:
  - `getZeroPoint`, `getDoughHeight`, `getOffset`, `getCalibrationTime`;
  - `getWebhookURL`, `isEnabled`;
  - the threshold getters (`Thresholds.Reached`).
- `CalibrationManager::begin` only adds logging to `loadFromNVS`, which is modelled by `Begin`.
- `setCalibrationManager` and the `calibrationMgr` pointer of `DataManager` are never used by the modelled code.
- History.DataManager.constructor: the slots start zeroed, as for an object of static storage duration. The code that creates the object (main.cpp) is not part of this model, and no retained point is ever read from an unwritten slot.
- The header comment at CalibrationManager.h:38 gives `zeroPoint - currentDistance + offset`. The code at CalibrationManager.cpp:98-107 subtracts `currentDistance + offset`. The model follows the code.
- Calibration.CalibrationManager.GetInitialDoughThickness and Cycle.HandleMeasure follow the corrected initial thickness of the first Findings row. A dough reading beyond the zero point gives 0 and a rise of 0%. The code as written gives 65526 for 80 mm and 90 mm, and a rise near -100%. The wrapped value is modelled only by `Calibration.InitialDoughThicknessAsWritten`.
- Calibration.DoughThicknessSpec and Calibration.DoughThicknessMonotone: stated only when `distance + offset` fits in `int16_t`. Sensor readings stay below about 1000 mm and the offset within ±50 mm, so the wrapped case does not arise. The operations themselves model the wrap.
- The threshold gate's state is `Thresholds` over `real`. `lastRisePercentage` is compared as an exact real, not as a `float`.
- The accumulator `sum` of the sampler is a `uint32_t`. Ten readings below 65536 cannot overflow it, so the model uses an unbounded integer there.

## Findings

| source | as written | input that shows it | evidently intended | confidence | as-written member | corrected member |
|---|---|---|---|---|---|---|
| CalibrationManager.cpp:66-74 | `uint16_t thickness = zeroPoint - doughHeight` with no guard for a dough reading beyond the zero point; the subtraction wraps modulo 65536 | zeroPoint 80, doughHeight 90 gives 65526 (`Cycle.OffsetAndInvalidBaseline`, `Calibration.InitialThicknessWraps`) | a physically impossible baseline gives 0, like the unset cases, so the result never exceeds the zero point | not executed | Calibration.InitialDoughThicknessAsWritten | Calibration.InitialDoughThickness |
| DataManager.cpp:52 | `(writeIndex - count + index) % MAX_POINTS` in signed `int` with C++'s truncating `%`, then stored in `uint16_t` | after 100 appends (writeIndex 0, count 100), index 1 gives slot 65437, outside the 100-slot buffer (`History.SlotAsWrittenEscapes`); the same happens to `getCurrentThickness`, `getCurrentRisePercentage` and `getLastMeasurementTime`, which read index `count - 1` (slot 65535 there) | index 0 is the oldest retained point: slot `(writeIndex + 100 - count + index) % 100`, always inside the buffer (`History.SlotOfAppend`, `History.OldestAfterWrap`) | not executed | History.SlotAsWritten | History.Slot |
