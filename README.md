# Cart dashboard core, modelled in Dafny

This project models the logic inside a React Native dashboard for a robotic mowing cart. Clock readings (`Date.now()`), random draws (`Math.random()`), fresh ids and the map's pixel size are made parameters. Numbers are exact: readings and coordinates are `real`, and millisecond timestamps are `int`/`nat`. JavaScript's `Math.floor(a / b)` with a positive divisor is Dafny's `/` on `int`.

One module per source file:

- `Calculations`: geometry and statistics helpers.
- `Notifications`: the notification list store, as a class over a `seq`.
- `CartSession`: the mapping and cutting session slots, as a class with two optional fields.
- `ControlPanel`: the action-button table.
- `SensorData`: the simulated sensor feed, as a class, plus the windowed averages.
- `Gauge`: the temperature/humidity gauge.
- `SensorChart`: the chart readout.
- `BatteryIndicator`: the battery level widget.
- `NotificationCard`: time labels and colour tables.
- `LiveMap`: bounding box, scaling and phase tables.

Shared modules:

- `Optional`: the `Option` type.
- `Common`: positions, obstacles, sensor samples and decimal rendering of ids.
- `Theme`: the theme colours used by these components.
- `Stats`: sums, extremes and the empty-safe mean.

`useCartSession.ts` keeps two independent slots, a mapping session (mapping/completed) and a cutting session (cutting/paused/stopped). It has no history, and it does not check the previous status before a transition. This model follows the code. Each component's own status set is kept as that component declares it.

## Model

| member | source | states |
|---|---|---|
| Calculations.Area | front/utils/calculations.ts:3-14 | Zero for fewer than 3 points. Otherwise twice the area is the absolute value of the closed shoelace sum, with the last point wrapping to the first. Never negative. |
| Calculations.CalculateArea | front/utils/calculations.ts:7-13 | The accumulating loop computes exactly `Area(path)`, so its result is never negative. |
| Calculations.AreaRotationInvariant | front/utils/calculations.ts:8-12 | Because the sum wraps around, starting the path at its second point gives the same shoelace sum and area. |
| Calculations.SquareArea | front/utils/calculations.ts:3-14 | The 10×10 square (0,0),(0,10),(10,10),(10,0) has area 100. |
| Calculations.TriangleArea | front/utils/calculations.ts:3-14 | The open path (0,0),(4,0),(4,3) is closed by the wrap-around and has area 6. |
| Calculations.SessionDuration | front/utils/calculations.ts:22-24 | The whole number of minutes m with 60000·m ≤ end − start < 60000·(m+1). The end time falls back to now when it is missing or 0. m ≥ 0 when end ≥ start. |
| Calculations.WorkingHours | front/utils/calculations.ts:82-89 | Hours × 60 equals the total minutes of sessions whose end time is present and non-zero. |
| Calculations.FinishedSessionAdds | front/utils/calculations.ts:84-85 | Appending a finished session adds ⌊(end − start)/60000⌋ minutes to the total, i.e. 60 × its hours. |
| Calculations.WorkingHoursNonNegative | front/utils/calculations.ts:82-89 | If no finished session ends before it starts, the total minutes and the working hours are ≥ 0. |
| Calculations.UnfinishedSessionAddsNothing | front/utils/calculations.ts:84-87 | Appending a session without a truthy end time leaves the working hours unchanged. |
| Calculations.CompletionPercentage | front/utils/calculations.ts:26-29 | 0 for an empty total path. Otherwise pct·total = 100·completed. In [0,100] when completed ≤ total. 100 when they have equal non-zero length. |
| Calculations.EstimateRemainingTime | front/utils/calculations.ts:41-52 | area·180000 when nothing is cut or the total path is empty. 0 when the whole non-empty path is cut. Between 0 and area·180000 for a non-negative area and completed ≤ total. For a non-empty total path, ms·total = area·180000·(total − completed), so the estimate is proportional to the share not yet cut. |
| Calculations.FormatDuration | front/utils/calculations.ts:54-61 | Minutes only exactly when m < 60. Otherwise h ≥ 1, 0 ≤ r < 60 and h·60 + r = m. |
| Calculations.FormatArea | front/utils/calculations.ts:63-68 | As written: below 1000 the area in m². From 1000 on, a number that times 1000 gives the area, labelled km². |
| Calculations.FormatAreaOverstatesKilometres | front/utils/calculations.ts:67 | An area of 1000 m² is shown as 1 km², which stands for 1000000 m². |
| Calculations.FormatAreaCorrected | front/utils/calculations.ts:63-68 | Same threshold. The shown number times the unit's size in m² always equals the area. |
| Calculations.AverageTemperature | front/utils/calculations.ts:31-34 | 0 for no samples. |
| Calculations.AverageTemperatureIsMean | front/utils/calculations.ts:33 | For a non-empty list, average × count = sum of the temperatures. |
| Calculations.AverageTemperatureWithin | front/utils/calculations.ts:31-34 | If every temperature lies in [lo,hi], so does the average. |
| Calculations.AverageTemperatureBetweenExtremes | front/utils/calculations.ts:31-34 | The average lies between the smallest and the largest temperature. |
| Calculations.AverageHumidity | front/utils/calculations.ts:36-39 | 0 for no samples. |
| Calculations.AverageHumidityIsMean | front/utils/calculations.ts:38 | For a non-empty list, average × count = sum of the humidities. |
| Calculations.AverageHumidityWithin | front/utils/calculations.ts:36-39 | If every humidity lies in [lo,hi], so does the average. |
| Calculations.AverageHumidityBetweenExtremes | front/utils/calculations.ts:36-39 | The average lies between the smallest and the largest humidity. |
| Stats.Min | front/components/SensorChart.tsx:52 | `Math.min` of a non-empty list is ≤ every element and equals one of them. |
| Stats.Max | front/components/SensorChart.tsx:53 | `Math.max` of a non-empty list is ≥ every element and equals one of them. |
| Notifications.NewNotification | front/hooks/useNotifications.ts:7-22 | A new entry is unread and not dismissed. It carries the given id, kind, title, message and time. Its priority is medium when none is given, else the given one. |
| Notifications.NotificationCenter.constructor | front/hooks/useNotifications.ts:5 | The list starts empty. |
| Notifications.NotificationCenter.AddNotification | front/hooks/useNotifications.ts:24 | The new entry is at index 0 and the previous list follows unchanged. The unread count grows by one. |
| Notifications.WithoutId | front/hooks/useNotifications.ts:29 | No survivor has the id. An entry survives exactly when it was in the list with another id. The list never grows. |
| Notifications.WithoutIdConcat | front/hooks/useNotifications.ts:29 | Filtering distributes over concatenation, so survivors keep their relative order. |
| Notifications.WithoutAbsentId | front/hooks/useNotifications.ts:29 | Dismissing an id nobody has leaves the list unchanged. |
| Notifications.NotificationCenter.DismissNotification | front/hooks/useNotifications.ts:28-30 | The new list is the filtered old list, and the unread count does not grow. |
| Notifications.MarkedRead | front/hooks/useNotifications.ts:33-35 | Same length. Each entry differs from the old one in `read` at most. `read` is set exactly on entries with the id and kept elsewhere. |
| Notifications.MarkedReadIdempotent | front/hooks/useNotifications.ts:32-36 | Marking an id twice is the same as marking it once. |
| Notifications.NotificationCenter.MarkAsRead | front/hooks/useNotifications.ts:32-36 | The new list is the mapped old list, and the unread count does not grow. |
| Notifications.NotificationCenter.ClearAllNotifications | front/hooks/useNotifications.ts:38-40 | The list becomes empty and the unread count 0. |
| Notifications.UnreadCount | front/hooks/useNotifications.ts:43 | The count of unread, undismissed entries never exceeds the list length. |
| Notifications.UnreadCountZero | front/hooks/useNotifications.ts:43 | The count is 0 exactly when every entry is read or dismissed. |
| Notifications.UnreadCountConcat | front/hooks/useNotifications.ts:43 | The count of a concatenation is the sum of the counts. |
| Notifications.MarkedReadNeverIncreasesUnread | front/hooks/useNotifications.ts:33-35 | Marking as read never raises the unread count. |
| Notifications.DismissNeverIncreasesUnread | front/hooks/useNotifications.ts:29 | Dismissing never raises the unread count. |
| Notifications.NotificationCenter.GenerateSampleNotifications | front/hooks/useNotifications.ts:47-66 | Exactly three entries are added in front of the old list: maintenance (low), low battery (medium), obstacle (high), with their texts. |
| CartSession.FreshMapping | front/hooks/useCartSession.ts:10-17 | A new mapping session has status mapping, empty path and obstacles, area 0, no end time, start = now and id `mapping_<now>`. |
| Common.NatToString | front/hooks/useCartSession.ts:11 | The decimal rendering of a clock reading in an id: at least one character, all digits. |
| Common.NatToStringValue | front/hooks/useCartSession.ts:11 | The rendering reads back as the number it renders. |
| Common.NatToStringInjective | front/hooks/useCartSession.ts:11 | Distinct numbers render as distinct strings. |
| CartSession.SessionIdsDistinct | front/hooks/useCartSession.ts:11-35 | Mapping sessions started at different clock readings get different ids, and so do cutting sessions. |
| CartSession.CompletedMapping | front/hooks/useCartSession.ts:23-27 | Status becomes completed and endTime = now. Every other field is unchanged. |
| CartSession.FreshCutting | front/hooks/useCartSession.ts:34-42 | totalPath is the mapping path and completedPath is empty. Status is cutting. Estimated completion = now + area·120000. The given mapping id is stored. |
| CartSession.PausedCutting | front/hooks/useCartSession.ts:48-52 | Status becomes paused and pausedAt = now. Every other field is unchanged. |
| CartSession.ResumedCutting | front/hooks/useCartSession.ts:58-62 | Status becomes cutting and resumedAt = now, whatever the prior status. Every other field is unchanged. |
| CartSession.StoppedCutting | front/hooks/useCartSession.ts:68-72 | Status becomes stopped and endTime = now. Every other field is unchanged. |
| CartSession.PauseThenResume | front/hooks/useCartSession.ts:46-64 | Pause then resume ends in cutting with the same id, total and completed paths. |
| CartSession.ResumeAfterStop | front/hooks/useCartSession.ts:56-74 | Resuming a stopped pass yields cutting and keeps its end time. |
| CartSession.CartSessionState.constructor | front/hooks/useCartSession.ts:5-7 | All three slots start empty. |
| CartSession.CartSessionState.StartMapping | front/hooks/useCartSession.ts:9-19 | Replaces the mapping slot with a fresh session. Its frame is the mapping slot only. |
| CartSession.CartSessionState.StopMapping | front/hooks/useCartSession.ts:21-29 | No change without a mapping session, else the completed session. Mapping slot only. |
| CartSession.CartSessionState.StartCutting | front/hooks/useCartSession.ts:31-44 | No change without a mapping session, else a fresh cutting session from it. Cutting slot only. |
| CartSession.CartSessionState.PauseCutting | front/hooks/useCartSession.ts:46-54 | No change without a cutting session, else the paused session. Cutting slot only. |
| CartSession.CartSessionState.ResumeCutting | front/hooks/useCartSession.ts:56-64 | No change without a cutting session, else the resumed session. Cutting slot only. |
| CartSession.CartSessionState.StopCutting | front/hooks/useCartSession.ts:66-74 | No change without a cutting session, else the stopped session. Cutting slot only. |
| ControlPanel.Buttons | front/components/ControlPanel.tsx:48-50 | Start is offered exactly in idle/paused/completed, pause exactly in mapping/cutting, stop exactly in mapping/cutting/paused. Reset appears exactly with a handler in completed. Start and pause never appear together. At least one button, none twice. |
| ControlPanel.ActionsExclusiveAndCovering | front/components/ControlPanel.tsx:48-50 | Start and pause are exclusive, and every status offers start, pause or stop. |
| ControlPanel.StatusDisplayInjective | front/components/ControlPanel.tsx:26-46 | Distinct statuses have distinct labels and distinct colours. |
| SensorData.BatteryLevelAt | front/hooks/useSensorData.ts:22 | The simulated level lies in (0,100]. It equals 100 − (now mod 200000)/2000, so the clamp at 0 never fires. |
| SensorData.NewSample | front/hooks/useSensorData.ts:19-24 | Temperature 20 + 15·draw, humidity 40 + 30·draw, battery `BatteryLevelAt(now)`, timestamp now. For draws in [0,1) that puts temperature in [20,35), humidity in [40,70) and battery in [0,100]. |
| SensorData.BoundedAppend | front/hooks/useSensorData.ts:27 | The newest min(200,\|prev\|) entries of prev in order, then the new sample. Length ≤ 201. Equals prev + [x] when \|prev\| ≤ 200. |
| SensorData.HealthCheck | front/hooks/useSensorData.ts:30-37 | Each sensor is disconnected exactly when its draw exceeds 0.95, 0.98, 0.97 or 0.96 respectively. lastChecked = now. |
| SensorData.SensorFeed.Tick | front/hooks/useSensorData.ts:18-38 | The new sample becomes currentData and the last buffer entry. The buffer is the bounded append. It preserves the invariant that the buffer holds at most 201 samples, is non-empty exactly when there is a current reading, and ends with that reading. |
| SensorData.SensorFeed.constructor | front/hooks/useSensorData.ts:6-14 | Empty buffer, no current reading, all four sensors connected. |
| SensorData.After | front/hooks/useSensorData.ts:46 | Keeps exactly the samples strictly newer than the cutoff. |
| SensorData.AfterConcat | front/hooks/useSensorData.ts:46 | The window filter distributes over concatenation. Together with the membership contract this fixes the order and how often each sample is kept. |
| SensorData.WindowIsStrict | front/hooks/useSensorData.ts:46 | A sample stamped exactly at the cutoff is excluded. |
| SensorData.DefaultWindowIsOneHour | front/hooks/useSensorData.ts:44 | Without a range the cutoff is now − 3600000. |
| SensorData.WindowAverageTemperature | front/hooks/useSensorData.ts:44-49 | The temperature average of the windowed samples. 0 when no sample is in the window. |
| SensorData.WindowTemperatureWithin | front/hooks/useSensorData.ts:46-48 | With some sample in the window and every windowed temperature in [lo,hi], the average is in [lo,hi]. |
| SensorData.WindowAverageHumidity | front/hooks/useSensorData.ts:51-56 | The humidity average of the windowed samples. 0 when no sample is in the window. |
| SensorData.WindowHumidityWithin | front/hooks/useSensorData.ts:53-55 | With some sample in the window and every windowed humidity in [lo,hi], the average is in [lo,hi]. |
| Gauge.LastReading | front/components/TemperatureHumidityGauge.tsx:23 | The last sample's temperature and humidity, or 0 and 0 with no data. |
| Gauge.Value | front/components/TemperatureHumidityGauge.tsx:24 | The reading's temperature for the temperature metric, its humidity otherwise. |
| Gauge.Unit | front/components/TemperatureHumidityGauge.tsx:25 | °C exactly for temperature, % exactly for humidity. |
| Gauge.RangeMin | front/components/TemperatureHumidityGauge.tsx:26 | The scale starts at 10 for temperature and 20 for humidity. |
| Gauge.RangeMax | front/components/TemperatureHumidityGauge.tsx:27 | The scale ends at 40 for temperature and 100 for humidity, above its start. |
| Gauge.Percentage | front/components/TemperatureHumidityGauge.tsx:30 | Always in [0,1]. 0 at or below min, 1 at or above max. Proportional in between. |
| Gauge.DashOffset | front/components/TemperatureHumidityGauge.tsx:36 | In [0, circumference] for a positive circumference. The full circumference at or below min, 0 at or above max. Strictly inside the range, offset·(max − min) = circumference·(max − value), i.e. circumference·(1 − percentage). |
| Gauge.Colors | front/components/TemperatureHumidityGauge.tsx:44-76 | Temperature: below 15 cool, above 30 hot, else warm. Humidity: below 30 warm, above 70 hot, else fresh. Each palette is the colour with its two gradient stops. |
| Gauge.Toggle | front/components/TemperatureHumidityGauge.tsx:40 | Switching always changes the metric. |
| Gauge.ToggleTwice | front/components/TemperatureHumidityGauge.tsx:39-41 | Switching twice restores the metric. |
| Gauge.GaugeState.SwitchMetric | front/components/TemperatureHumidityGauge.tsx:39-41 | The shown metric is replaced by the other one. |
| Gauge.GaugeState.Readout | front/components/TemperatureHumidityGauge.tsx:23-76 | One render's chain: the value is the last sample's field of the current metric, with its unit, the filled share in [0,1], the dash offset and the palette of that value's band. Empty data shows 0, an empty arc and the bottom band's palette. |
| Gauge.GaugeState.constructor | front/components/TemperatureHumidityGauge.tsx:20 | The gauge starts on temperature. |
| SensorChart.GetValue | front/components/SensorChart.tsx:16-23 | Temperature, humidity or battery level according to the chart type. |
| SensorChart.GetUnit | front/components/SensorChart.tsx:25-32 | °C exactly for temperature, % exactly for humidity and battery. |
| SensorChart.GetColor | front/components/SensorChart.tsx:34-41 | Warning exactly for temperature, info exactly for humidity, success exactly for battery. |
| SensorChart.Values | front/components/SensorChart.tsx:50 | The plotted value of each sample, in order. |
| SensorChart.GetCurrentValue | front/components/SensorChart.tsx:43-46 | The last sample's value, or 0 for empty data. |
| SensorChart.GetMinMax | front/components/SensorChart.tsx:48-55 | (0,100) for empty data. Otherwise min ≤ every value ≤ max, and both bounds are attained. |
| SensorChart.CurrentWithinRange | front/components/SensorChart.tsx:43-55 | For non-empty data, min ≤ current value ≤ max. |
| BatteryIndicator.Level | front/components/BatteryIndicator.tsx:12-13 | The last sample's battery level, or 0 for no data. |
| BatteryIndicator.LookFor | front/components/BatteryIndicator.tsx:15-23 | Error colour and low icon exactly below 20. Warning and charging icon exactly in [20,50). Success and full icon exactly from 50. |
| BatteryIndicator.LookMonotone | front/components/BatteryIndicator.tsx:15-23 | A higher level never shows a worse band. |
| BatteryIndicator.EmptyDataShowsLow | front/components/BatteryIndicator.tsx:12-19 | With no data the widget shows the error band. |
| NotificationCard.Icon | front/components/NotificationCard.tsx:13-22 | The alert triangle exactly for obstacles and unknown kinds. Battery, wrench, check circle and wifi exactly for low battery, maintenance, session complete and connection, so these get pairwise distinct icons. |
| NotificationCard.IconMatchesBorder | front/components/NotificationCard.tsx:24-40 | For every priority the icon colour equals the border colour. |
| NotificationCard.BackgroundColor | front/components/NotificationCard.tsx:42-49 | The border colour with the `10` alpha suffix. |
| NotificationCard.MinutesSince | front/components/NotificationCard.tsx:54 | The floor of the elapsed time in minutes. |
| NotificationCard.FormatTime | front/components/NotificationCard.tsx:51-63 | Just now exactly below 1 minute. `{m}m ago` exactly for 1–59. `{h}h ago` exactly for 60 minutes up to 24 hours, with h in 1..23 and ⌊m/60⌋ = h. The date branch exactly from 24 hours on. |
| NotificationCard.FutureIsJustNow | front/components/NotificationCard.tsx:56 | A future timestamp is shown as just now. |
| LiveMap.PhaseDisplayInjective | front/components/LiveMap.tsx:25-41 | Mapping/info, cutting/success and completed/primary: distinct phases have distinct colours and labels. |
| LiveMap.BoundingBox | front/components/LiveMap.tsx:43-50 | An empty path gives the box at (0,0). Otherwise every point lies in the box and each bound is attained. |
| LiveMap.Divisor | front/components/LiveMap.tsx:53 | The divisor max(range,1) is ≥ 1 and ≥ range, so scaling is defined everywhere. |
| LiveMap.ScaleAtMinimum | front/components/LiveMap.tsx:52-56 | scaleX(minX) = 0 and scaleY(minY) = 0. |
| LiveMap.ScaleXWithin | front/components/LiveMap.tsx:53-54 | An x within the box scales into [0, MAP_SIZE − 10] when MAP_SIZE ≥ 10. |
| LiveMap.ScaleYWithin | front/components/LiveMap.tsx:55-56 | A y within the box scales into [0, MAP_SIZE − 10] when MAP_SIZE ≥ 10. |
| LiveMap.ScaleMonotone | front/components/LiveMap.tsx:52-56 | scaleX and scaleY are monotone non-decreasing when MAP_SIZE ≥ 10. |
| LiveMap.MappingPointsInsideMap | front/components/LiveMap.tsx:43-56 | Every mapping-path point is drawn inside [0, MAP_SIZE − 10] on both axes. |
| LiveMap.PolygonPoints | front/components/LiveMap.tsx:59-61 | Point i is (scaleX(path[i].x), scaleY(path[i].y)), one per path point in order, all inside the map when MAP_SIZE ≥ 10. |

The filled polygon is drawn exactly when `LiveMap.DrawsPolygon` holds, that is for more than two mapping points (front/components/LiveMap.tsx:76). `ControlPanel.ShowsReset` (front/components/ControlPanel.tsx:97) is the reset condition that `ControlPanel.Buttons` states.

Some tables and formulas are the definitions that the rows above speak about, and they carry no separate row:
- `ControlPanel.StatusText` and `ControlPanel.StatusColor` are the label and colour tables of front/components/ControlPanel.tsx:26-46. `ControlPanel.StatusDisplayInjective` is about them.
- `ControlPanel.CanStart`, `ControlPanel.CanPause` and `ControlPanel.CanStop` are the predicates of lines 48-50. `ControlPanel.Buttons` and `ControlPanel.ActionsExclusiveAndCovering` state them.
- `NotificationCard.IconColor` and `NotificationCard.BorderColor` are the priority tables of front/components/NotificationCard.tsx:24-40. `NotificationCard.IconMatchesBorder` and `NotificationCard.BackgroundColor` are about them.
- `LiveMap.PhaseColor` and `LiveMap.PhaseLabel` are the tables of front/components/LiveMap.tsx:25-41. `LiveMap.PhaseDisplayInjective` is about them.
- `LiveMap.ScaleX` and `LiveMap.ScaleY` are the formulas of lines 52-56. `LiveMap.ScaleAtMinimum`, `LiveMap.ScaleXWithin`, `LiveMap.ScaleYWithin`, `LiveMap.ScaleMonotone` and `LiveMap.PolygonPoints` are about them.

## Left out

- I/O and platform timers are not modelled: `setInterval`, `Date.now()`, `Math.random()`, `Dimensions.get`. Clock readings, random draws, generated ids and the map size are parameters. The random draws are assumed to lie in [0,1), as `Math.random()` guarantees.
- Numbers are exact reals and integers, with no IEEE-754 rounding and no NaN. A backend session whose timestamps are ISO strings would make `getWorkingHours` produce NaN, and this is not modelled.
- `calculateDistance` needs `Math.sqrt` and is left out. The gauge circumference `2·π·70` is a parameter; only its positivity is used.
- Text rendering is not modelled: `toFixed`, `toLocaleTimeString`, `toLocaleDateString`, and the template strings of `formatDuration`, `formatArea`, `formatTime`, `formatTemperature`, `formatHumidity` and `formatBattery`. The model returns which branch or unit is chosen and the numbers shown.
- `console.log` in `addNotification` is not modelled.
- JSX, SVG and style sheets are not modelled, nor the `disabled` flag in `ControlPanel.tsx`. That flag dims the buttons and blocks their presses (lines 68, 79, 90 and 101). Which buttons are shown does not depend on it.
- The default branches of the `switch` tables are not modelled. The model's status, phase, chart-type and priority types list only the values the components declare, so those branches cannot be reached. Notification kinds have an `Other` case, so the icon fallback stays reachable.
- React's render cycle is not modelled. The callbacks in `useCartSession.ts` test the rendered state (`if (cuttingSession)`) and then update `prev`. Calls are sequential in the model, so the two are the same state.
- `useCartSession.ts` declares `currentPosition` but never sets it, so it stays `None`.
- `SensorData.WindowAverageTemperature` and `SensorData.WindowAverageHumidity`: "between the smallest and largest windowed sample" is stated as "every windowed sample in [lo,hi] ⇒ average in [lo,hi]". Taking lo and hi as the windowed extremes gives the same fact.
- In `LiveMap.tsx`, the cutting path, the obstacles and the current position are scaled with the same functions. They are not bounded by the mapping box, so no range is stated for them.
- Left out as presentation or network code: `useWorkingSession.ts`, `useSessionPath.ts`, `useWiFiConnection.ts`, `useCartConnection.ts`, `StatusCard.tsx`, `StatCard.tsx`, `BrandHeader.tsx`, theme constants other than the used colours, and the screens under `front/app`. `front/types/index.ts` is not part of this model; record shapes follow how the code uses them.

## Findings

| source | as written | input that shows it | evidently intended | confidence | as-written member | corrected member |
|---|---|---|---|---|---|---|
| front/utils/calculations.ts:67 | areas of 1000 m² or more are divided by 1000 and labelled km² | area = 1000 m² is shown as "1.00 km²", which is 1000000 m² | divide by 1000000, the square metres in a km² | high that the label is wrong; where to switch units is a product choice; not executed | Calculations.FormatArea, Calculations.FormatAreaOverstatesKilometres | Calculations.FormatAreaCorrected |
