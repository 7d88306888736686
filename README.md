# Diet tracker core, modelled in Dafny

This project models the three pieces of the browser diet tracker that hold logic rather than
layout:

- **Food log** (`food_log.dfy`, module `FoodLog`). This is the list of logged foods, newest first.
  Adding an entry validates the form, fills in defaults, dates the entry today and prepends it.
  Deleting removes every entry with a given id. Either change replaces the list and writes it to
  browser storage. The page shows today's entries and their per-macro totals (calories, protein,
  carbs, fat). `FoodLogStore` is a class whose methods update the list, the storage mirror and the
  form in place. The filter and the totals are pure functions.
- **Nutrition analysis** (`nutrition_analysis.dfy`, module `NutritionAnalysis`). It keeps the
  entries dated within the trailing 7-day window and divides each macro's sum by a fixed 7. It then
  compares each daily average with the recommended table (2000 kcal, 60 g protein, 275 g carbs,
  60 g fat). Each macro gets a capped progress value and a high/low/normal trend, and up to four
  advisory messages are chosen. All of it is pure.
- **Chat assistant** (`ai_chat.dfy`, module `AIChat`). It builds on `text.dfy` (module `Text`: the
  JavaScript `includes`, `toLowerCase`, `trim` and `startsWith`). `GenerateResponse` is the canned
  responder. An attached image always gets the image acknowledgement. Otherwise four keyword topics
  are checked in a fixed order: weight loss, breakfast, protein, water. If none matches, one of four
  generic replies is returned. `ChatSession` is a class holding the message list, the text box,
  the loading flag and the reply that the latency timer will deliver.

`seqs.dfy` (module `Seqs`) defines the order-preserving `filter` once, with its lemmas.
`wrappers.dfy` defines `Option`.

Time is represented as follows:

- A food entry's date is a day number: days since 1970-01-01 in UTC.
- The source stores this date as the `YYYY-MM-DD` prefix of `toISOString()`.
- The analysis parses that prefix back to midnight UTC, so an entry's instant is
  `date * 86400000` ms.
- The current instant `now` (ms) and the current day `today` are parameters.
- `NutritionAnalysis.DayOf(now)` is the UTC day that `toISOString` names.

Record ids (`Date.now()` strings) and the random fallback index are parameters as well.

## Model

| member | source | states |
|---|---|---|
| `FoodLog.Sum` | src/components/diet/FoodLog.tsx:89-97 | The left-to-right `reduce` from all zeros. It has no contract of its own; `SumPrepend`, `SumNonNegative` and `FilterSum` state its properties. |
| `FoodLog.SumNonNegative` | src/components/diet/FoodLog.tsx:89-97 | When no entry has a negative amount of any macro, no total is negative. |
| `FoodLog.SumPrepend` | src/components/diet/FoodLog.tsx:89-97 | The left-to-right `reduce` total of an entry list with one entry in front is that entry's macros plus the total of the rest. |
| `FoodLog.TodayEntries` | src/components/diet/FoodLog.tsx:84-87 | Every entry returned is dated today and comes from the log. |
| `FoodLog.TodayEntriesExact` | src/components/diet/FoodLog.tsx:84-87 | Today's entries are an order-preserving subsequence of the log. They contain every entry dated today, as often as it occurs, and no other entry. |
| `FoodLog.FilterSum` | src/components/diet/FoodLog.tsx:84-97 | For any test, the `reduce` over the entries a filter keeps equals `SumWhere`, an independent right-to-left per-macro sum over exactly the entries passing that test. The per-day and per-week totals both rest on it. |
| `FoodLog.TodayTotal` | src/components/diet/FoodLog.tsx:89-97 | Today's totals are `SumWhere` over exactly the entries whose date is today. |
| `FoodLog.TodayTotalEmpty` | src/components/diet/FoodLog.tsx:89-97 | With no entry dated today, there are no entries for today and every total is zero. |
| `FoodLog.PrependTodayTotal` | src/components/diet/FoodLog.tsx:89-97 | Prepending an entry dated today puts it first among today's entries and raises each of today's four totals by exactly its macros. |
| `FoodLog.NewEntry` | src/components/diet/FoodLog.tsx:42-61 | There is no entry exactly when the food name or the calories are empty. Otherwise the entry carries the given id, today's date, the meal, the name and the calories. A protein, carbs or fat input that is empty becomes 0, and one that is filled is kept. |
| `FoodLog.Cleared` | src/components/diet/FoodLog.tsx:64-68 | After an add, all five inputs (name, calories, protein, carbs, fat) are empty, as on mount, and the chosen meal is kept. |
| `FoodLog.Remove` | src/components/diet/FoodLog.tsx:76-77 | No surviving entry has the deleted id, and every survivor comes from the log. |
| `FoodLog.RemoveExact` | src/components/diet/FoodLog.tsx:76-77 | Deleting keeps an order-preserving subsequence. Every entry with another id survives as often as it occurred, and no entry with the id survives. |
| `FoodLog.RemoveAbsent` | src/components/diet/FoodLog.tsx:76-77 | Deleting an id that no entry carries leaves the list unchanged. |
| `FoodLog.RemoveUndoesPrepend` | src/components/diet/FoodLog.tsx:63-77 | Deleting a just-added entry by its id, when no older entry has that id, gives back the old list. |
| `FoodLog.RiceScenario` | src/components/diet/FoodLog.tsx:42-97 | Start from a log with nothing for today. Adding 200 kcal of rice for lunch makes today's calories 200. Deleting the rice brings them back to 0. |
| `FoodLog.FoodLogStore.constructor` | src/components/diet/FoodLog.tsx:21-35 | On mount, the list is the stored list, or empty when nothing is stored. The form is blank, with breakfast selected. |
| `FoodLog.FoodLogStore.Save` | src/components/diet/FoodLog.tsx:37-40 | The held list becomes the new list, and storage holds the same list. |
| `FoodLog.FoodLogStore.Add` | src/components/diet/FoodLog.tsx:42-74 | The add succeeds exactly when the name and the calories are filled in; a failed add changes nothing. A successful add gives `[new entry] + old list` (one longer, old order kept), saves it and clears the form. Today's totals then rise by exactly the new entry's macros. |
| `FoodLog.FoodLogStore.Delete` | src/components/diet/FoodLog.tsx:76-82 | The list becomes the old list without that id's entries, and it is saved. Deleting an absent id leaves the list unchanged. |
| `NutritionAnalysis.WeeklyEntries` | src/components/diet/NutritionAnalysis.tsx:27-35 | Every entry kept lies in the inclusive window [now − 7·24·3600·1000 ms, now] and comes from the log. |
| `NutritionAnalysis.WeeklyEntriesExact` | src/components/diet/NutritionAnalysis.tsx:27-35 | The weekly filter keeps, in order, exactly the entries inside the window, each as often as it occurs. |
| `NutritionAnalysis.WindowDays` | src/components/diet/NutritionAnalysis.tsx:27-35 | In calendar days, the window is today and the six days before it. The seventh day back is also included, but only when `now` is exactly midnight UTC. |
| `NutritionAnalysis.TodayInWindow` | src/components/diet/NutritionAnalysis.tsx:27-46 | An entry dated the current day is always in the window, so it adds exactly its macros to the weekly totals. |
| `NutritionAnalysis.WeeklyTotal` | src/components/diet/NutritionAnalysis.tsx:37-46 | The weekly totals are `SumWhere` over exactly the entries whose date lies in the window. |
| `NutritionAnalysis.DailyAverage` | src/components/diet/NutritionAnalysis.tsx:48-53 | Each average times 7 is the weekly total, however many entries or days there are. |
| `NutritionAnalysis.SingleEntryAverage` | src/components/diet/NutritionAnalysis.tsx:37-53 | A single 700 kcal entry from today averages 100 kcal a day. |
| `NutritionAnalysis.EmptyWindowAverage` | src/components/diet/NutritionAnalysis.tsx:37-53 | With no entry in the window, every average is zero. |
| `NutritionAnalysis.Percentage` | src/components/diet/NutritionAnalysis.tsx:63-65 | Progress never exceeds 100. It is value/target·100 when the value is at most the target, and exactly 100 when the value is at least the target. |
| `NutritionAnalysis.GetTrend` | src/components/diet/NutritionAnalysis.tsx:67-72 | In exact arithmetic: high exactly when the value is over 110% of the target. Low exactly when it is under 90%. Normal exactly when it lies between the two, both ends included. |
| `NutritionAnalysis.TrendBoundaries` | src/components/diet/NutritionAnalysis.tsx:67-72 | In exact arithmetic, exactly 90% and exactly 110% of the target are both normal. Anything below 90% is low, and anything above 110% is high. |
| `NutritionAnalysis.Advisories` | src/components/diet/NutritionAnalysis.tsx:146-183 | Calorie-low advice appears iff avg < 1800. Protein-low advice appears iff avg < 54. Carbs-high advice appears iff avg > 302.5. The balanced message appears iff 1800 < calories < 2200 and 54 < protein < 66. The advisories appear in the page's order: calorie-low, protein-low, carbs-high, balanced. |
| `NutritionAnalysis.BalancedExcludesLow` | src/components/diet/NutritionAnalysis.tsx:147-182 | The balanced message never appears together with the calorie-low or the protein-low advice. |
| `NutritionAnalysis.BalancedWithHighCarbs` | src/components/diet/NutritionAnalysis.tsx:165-182 | The conditions are independent: 2000 kcal, 60 g protein and 400 g carbs show both the carbs-high advice and the balanced message. |
| `NutritionAnalysis.Assess` | src/components/diet/NutritionAnalysis.tsx:74-137 | There is one trend and one progress value for each of the four macros, and every progress value is at most 100. In exact arithmetic, calories are high above 2200 and low below 1800. Protein and fat are high above 66 and low below 54. Carbs are high above 302.5 and low below 247.5. The progress of each macro (targets 2000 kcal, 60 g protein, 275 g carbs, 60 g fat) is the proportional value up to its target and 100 from it on. The advice is exactly that of `Advisories`. |
| `NutritionAnalysis.Analyze` | src/components/diet/NutritionAnalysis.tsx:37-182 | The page is the assessment of the window's daily average. That average times 7 is the window's calorie sum. The whole result is `Assess` of that average, so every trend label, progress bar and advisory shown is the one `Assess` promises for it. |
| `NutritionAnalysis.EmptyWindowAnalysis` | src/components/diet/NutritionAnalysis.tsx:37-182 | With no entry in the window, all averages and all progress values are 0 and all four macros are low. The advice is exactly calorie-low followed by protein-low. |
| `Text.Contains` | src/components/diet/AIChat.tsx:42 | `includes` holds exactly when the keyword occurs at some position of the text. |
| `Text.ToLower` | src/components/diet/AIChat.tsx:36 | Lower-casing keeps the length and leaves no capital A–Z in the result. Every character outside A–Z stays as it was, and each capital becomes the letter 32 code points above it. |
| `Text.ToLowerIdempotent` | src/components/diet/AIChat.tsx:36 | Lower-casing twice is the same as lower-casing once. |
| `Text.TrimStart` | src/components/diet/AIChat.tsx:69 | Removes exactly a leading run of white space and leaves a result that does not start with white space. |
| `Text.TrimEnd` | src/components/diet/AIChat.tsx:69 | Removes exactly a trailing run of white space and leaves a result that does not end with white space. |
| `Text.Trim` | src/components/diet/AIChat.tsx:69 | The result is empty exactly when every character is white space; otherwise it neither starts nor ends with white space. |
| `Text.TrimSlice` | src/components/diet/AIChat.tsx:69 | The trimmed result is the contiguous slice of the input that starts right after its leading white space. |
| `Text.TrimDropsWhitespace` | src/components/diet/AIChat.tsx:69 | Every character outside that slice is white space. |
| `Text.TrimEmpty` | src/components/diet/AIChat.tsx:69 | The trimmed input is empty exactly when every character is white space. |
| `Text.StartsWith` | src/components/diet/AIChat.tsx:99 | True exactly when the text has the prefix at position 0, which also means the text contains it. |
| `AIChat.FirstTopic` | src/components/diet/AIChat.tsx:42-56 | The result is none exactly when no topic's keyword occurs. Otherwise the chosen topic is mentioned and no topic checked before it is. |
| `AIChat.GenerateResponse` | src/components/diet/AIChat.tsx:35-66 | With an image, the reply is the image acknowledgement whatever the text. With no keyword, it is the generic reply at the given index. It is always one of the fixed replies. |
| `AIChat.FallbackOnlyWithoutKeyword` | src/components/diet/AIChat.tsx:35-66 | All replies are different texts, so a generic reply comes back exactly when there is no image and no keyword matches. |
| `AIChat.PriorityOrder` | src/components/diet/AIChat.tsx:42-56 | A message that mentions a topic, and no topic checked before it, gets that topic's advice, whatever later topics it also mentions. |
| `AIChat.KeywordReplyDeterministic` | src/components/diet/AIChat.tsx:42-65 | Once a keyword matches, the reply is one of the four topic blocks and does not depend on the random index. |
| `AIChat.CaseInsensitive` | src/components/diet/AIChat.tsx:35-36 | A message and its lower-cased form get the same reply. |
| `AIChat.WeightLossExample` | src/components/diet/AIChat.tsx:42-44 | "我想减肥" gets the weight-loss advice. |
| `AIChat.WeightLossBeforeBreakfast` | src/components/diet/AIChat.tsx:42-48 | The message "早餐怎么吃才能减肥", which names both breakfast (早餐) and weight loss (减肥), gets the weight-loss advice. |
| `AIChat.UpperCaseBreakfast` | src/components/diet/AIChat.tsx:46-48 | "BREAKFAST" in capitals gets the breakfast advice. |
| `AIChat.NoKeywordExample` | src/components/diet/AIChat.tsx:58-65 | "今天天气如何" matches no keyword and gets one of the four generic replies. |
| `AIChat.ChatSession.constructor` | src/components/diet/AIChat.tsx:17-26 | A new chat holds only the welcome message, with an empty text box and no reply pending. It starts in the valid state, where loading is on exactly while a reply is pending. |
| `AIChat.ChatSession.Send` | src/components/diet/AIChat.tsx:68-81 | It is callable only while not loading, because the text box and the send button are disabled while loading (AIChat.tsx:224-245). An empty or all-white-space input changes nothing. Any other input appends exactly one user message whose content is the input, keeps earlier messages, clears the text box and schedules a reply to that input. The session stays valid. |
| `AIChat.ChatSession.UploadImage` | src/components/diet/AIChat.tsx:95-122 | It is modelled as callable only while not loading: the camera button is disabled while loading, but the image reader's `onload` callback is not, so this is a restriction of the model. A missing file or a non-image changes nothing. An image appends one user message carrying it and schedules the image reply. The session stays valid. |
| `AIChat.ChatSession.Deliver` | src/components/diet/AIChat.tsx:83-92 | When the timer fires, the scheduled reply is appended as one assistant message with the text `GenerateResponse` gives, and loading ends. With nothing scheduled, nothing changes. The session stays valid. |
| `Seqs.Filter` | src/components/diet/FoodLog.tsx:86 | The filtered list is no longer than the input, and every element in it satisfies the test and comes from the input. |
| `Seqs.FilterIsSubsequence` | src/components/diet/FoodLog.tsx:86 | Filtering keeps an order-preserving subsequence. |
| `Seqs.FilterCount` | src/components/diet/FoodLog.tsx:86 | Filtering keeps each element that satisfies the test as often as it occurs, and drops all other elements. |
| `Seqs.FilterKeepsAll` | src/components/diet/FoodLog.tsx:77 | When every element satisfies the test, filtering changes nothing. |
| `Seqs.FilterDropsAll` | src/components/diet/FoodLog.tsx:86 | When no element satisfies the test, filtering leaves nothing. |

## Left out

- Rendering is not modelled: JSX, styling, icons, toasts, the progress bars, scroll-into-view, and the `toFixed` rounding of displayed numbers.
- Browser storage and JSON are not modelled. `FoodLogStore.persisted` mirrors what the storage key holds. The analysis takes the list it would have loaded at mount as a parameter. `JSON.parse` throwing on corrupt stored data is not modelled.
- Clocks and randomness are parameters. These are `Date.now()` ids, `new Date()` for "now" and "today", and `Math.random` (the index `pick < 4`). When several entries share one id, `Delete` removes all of them, as the source's filter does.
- Numeric inputs are `Option<real>`, where None means empty. The inputs are `type="number"` fields, so the browser reports either an empty string or a number. `parseFloat` on any other text (which yields NaN) is not modelled.
- The model uses exact reals, not IEEE doubles. The constants 2000·0.9, 60·0.9, 275·1.1, 2000·0.1 and 60·0.1 all round to the exact values used here. The 90% side and the cap at 100 come out exact in doubles too. The `/ 7` of the averages may round in doubles.
- NutritionAnalysis.TrendBoundaries: holds in exact arithmetic only. In doubles, `(value / target) * 100` is 110.00000000000001 at exactly 110% of every target (2200/2000, 66/60, 302.5/275), so the page labels exactly 110% as high (偏高). A weekly total of 15400 kcal averages exactly 2200 and shows calories as high. At a carbs average of exactly 302.5 the page shows carbs high but no carbs-high advice, because that advice tests `> 302.5`. 
- NutritionAnalysis.GetTrend: in exact arithmetic, exactly 110% of the target is normal, whereas the page in doubles shows high there (see the line above).
- NutritionAnalysis.Assess: its trend conditions are in exact arithmetic; at exactly 2200 kcal, 66 g protein or fat, or 302.5 g carbs, the page in doubles shows high where the model says normal.
- `Meal` is an enumeration of the four options of the meal selector. The source stores it as a free string.
- `Text.ToLower`: only ASCII A–Z are mapped. JavaScript's `toLowerCase` also maps other cased letters. Some of those change a match, for example the Kelvin sign U+212A lower-cases to `k`, so "BREAKFAST" matches "breakfast" in the browser but not in this model. The keywords' Chinese characters have no case.
- Asynchronous plumbing is reduced to a separate `Deliver` step. Neither the `setTimeout` delays (1000 ms, 1500 ms) nor the `FileReader` load are modelled. The model keeps at most one reply pending: `ChatSession.Valid` ties the loading flag to the pending reply, and `Send` and `UploadImage` require that nothing is loading. The page does not guarantee this for images. The camera button is disabled while loading, but the `FileReader`'s `onload` callback (AIChat.tsx:109-132) runs later and is not guarded. A text send can happen between choosing the image and `onload`, which leaves two replies pending and lets the first reply clear the loading flag while the other is still pending. This interleaving and the extra pending replies are not modelled.
- AIChat.ChatSession.UploadImage: requires that nothing is loading, which the page guarantees when the image is chosen but not when it has been read (see the line above).
- `UploadImage` does not model resetting the file input's value.
- `handleKeyPress` is not modelled. It is UI wiring: Enter without Shift calls `handleSend`.
- The recipe list (src/components/diet/RecipeRecommendations.tsx) is static data and is not part of this model.
- The health-assistant page (src/pages/HealthAssistant.tsx) is a random pick among five strings and is not part of this model.
- The tab shell (src/pages/Index.tsx) is not part of this model.
